// core/services/quote_service.py:213-268: turning an accepted quote into a draft invoice. `convert`
// is not one transaction: it reads the quote, lets InvoiceService commit a draft, and then marks the
// quote converted. Here any number of conversions run interleaved with each other, with every other
// use-case, and with crashes between the transactions.
module Conversion {
  import opened Common
  import opened Calendar
  import opened Money
  import opened Lines
  import opened CurrencyMath
  import opened Numbering
  import opened Compliance
  import opened Store
  import opened Transactions
  import opened Frames
  import opened LedgerInvariant
  import opened LedgerHistory

  /** How far a conversion in flight has come. */
  datatype Stage =
    | HasRead(quoteId: Id, quote: Quote)
    | HasDrafted(quoteId: Id, quote: Quote, invoiceId: Id)

  datatype World = World(store: Store, running: map<nat, Stage>)

  datatype Event =
    | Use(c: Command)
    | ConvertRead(pid: nat, quoteId: Id)
    | ConvertDraft(pid: nat, invoiceId: Id, issueDate: Option<Date>, dueDate: Option<Date>, today: Date)
    | ConvertMark(pid: nat)
    | Crash(pid: nat)

  /** Only `convert` marks a quote converted. */
  predicate IsMark(c: Command) {
    c.DoTransition? && c.move.MarkConverted?
  }

  function Next(w: World, e: Event): World {
    match e
    case Use(c) => if IsMark(c) then w else w.(store := Step(w.store, c))
    case ConvertRead(pid, quoteId) =>
      if pid in w.running || quoteId !in w.store.quotes || !w.store.quotes[quoteId].status.Accepted? then w
      else w.(running := w.running[pid := HasRead(quoteId, w.store.quotes[quoteId])])
    case ConvertDraft(pid, invoiceId, issueDate, dueDate, today) =>
      if pid !in w.running || !w.running[pid].HasRead? then w
      else
        var stage := w.running[pid];
        var r := CreateDraft(w.store, invoiceId, ConversionRequest(stage.quote, issueDate, dueDate, today), today);
        if r.Err? then w.(running := w.running - {pid})
        else World(r.value, w.running[pid := HasDrafted(stage.quoteId, stage.quote, invoiceId)])
    case ConvertMark(pid) =>
      if pid !in w.running || !w.running[pid].HasDrafted? then w
      else
        var stage := w.running[pid];
        World(Step(w.store, DoTransition(stage.quoteId, MarkConverted(stage.invoiceId))), w.running - {pid})
    case Crash(pid) => w.(running := w.running - {pid})
  }

  function Unfold(w: World, es: seq<Event>): World {
    if es == [] then w else Next(Unfold(w, es[..|es| - 1]), es[|es| - 1])
  }

  /** The ledger transaction an event performs, if any. */
  function TransactionOf(w: World, e: Event): Option<Command> {
    match e
    case Use(c) => if IsMark(c) then None else Some(c)
    case ConvertRead(_, _) => None
    case ConvertDraft(pid, invoiceId, issueDate, dueDate, today) =>
      if pid !in w.running || !w.running[pid].HasRead? then None
      else Some(DoCreateDraft(invoiceId, ConversionRequest(w.running[pid].quote, issueDate, dueDate, today), today))
    case ConvertMark(pid) =>
      if pid !in w.running || !w.running[pid].HasDrafted? then None
      else Some(DoTransition(w.running[pid].quoteId, MarkConverted(w.running[pid].invoiceId)))
    case Crash(_) => None
  }

  lemma {:induction false} EventIsOneTransaction(w: World, e: Event)
    ensures Next(w, e).store == match TransactionOf(w, e) case None => w.store case Some(c) => Step(w.store, c)
  {
    hide AddCompany, UpdateCompany, AddClient, UpdateClient, CreateDraft, Duplicate, DeleteDraft, IssueInvoice, VoidInvoice,
         IssueCreditNote, RecordPayment, CreateQuote, TransitionQuote, DeleteQuote;
  }

  // ------------------------------------------------------------------ permanence

  /** Whatever interleaves, the ledger invariant holds and later stores keep what earlier ones
      promised; a converted quote in particular never changes again: not its status, not its link. */
  lemma {:induction false} EventKeeps(w: World, e: Event)
    requires Inv(w.store)
    ensures Inv(Next(w, e).store) && Later(w.store, Next(w, e).store)
  {
    hide Inv, Later, Step, Next, TransactionOf;
    EventIsOneTransaction(w, e);
    match TransactionOf(w, e)
    case None => UntouchedIsLater(w.store, w.store);
    case Some(c) => StepKeepsInv(w.store, c); StepIsLater(w.store, c);
  }

  lemma {:induction false} UnfoldKeeps(w: World, es: seq<Event>)
    requires Inv(w.store)
    ensures Inv(Unfold(w, es).store) && Later(w.store, Unfold(w, es).store)
  {
    hide Inv, Later, Next, IdsOk;
    if es == [] {
      UntouchedIsLater(w.store, w.store);
    } else {
      var before := Unfold(w, es[..|es| - 1]);
      UnfoldKeeps(w, es[..|es| - 1]);
      EventKeeps(before, es[|es| - 1]);
      IdsOfInv(w.store);
      LaterTransitive(w.store, before.store, Next(before, es[|es| - 1]).store);
    }
  }

  predicate IsConverted(s: Store, q: Id) {
    q in s.quotes && s.quotes[q].status.Converted?
  }

  /** How often quote q turns CONVERTED along a run. */
  function Conversions(w: World, es: seq<Event>, q: Id): nat {
    if es == [] then 0
    else
      var before := Unfold(w, es[..|es| - 1]);
      Conversions(w, es[..|es| - 1], q)
      + if !IsConverted(before.store, q) && IsConverted(Next(before, es[|es| - 1]).store, q) then 1 else 0
  }

  /** A quote becomes CONVERTED at most once, over every interleaving. */
  lemma {:induction false} ConvertedAtMostOnce(w: World, es: seq<Event>, q: Id)
    requires Inv(w.store)
    ensures Conversions(w, es, q) <= 1
    ensures Conversions(w, es, q) == 1 ==> IsConverted(Unfold(w, es).store, q)
    ensures IsConverted(w.store, q) ==> Conversions(w, es, q) == 0 && IsConverted(Unfold(w, es).store, q)
    ensures IsConverted(w.store, q) ==> Unfold(w, es).store.quotes[q] == w.store.quotes[q]
  {
    hide Inv, Next;
    if es != [] {
      var before := Unfold(w, es[..|es| - 1]);
      ConvertedAtMostOnce(w, es[..|es| - 1], q);
      UnfoldKeeps(w, es[..|es| - 1]);
      EventKeeps(before, es[|es| - 1]);
      UnfoldKeeps(w, es);
    }
  }

  /** No conversion, no quote step and no crash draws an invoice number: the invoice counters move in
      `issue` and nowhere else. */
  lemma {:induction false} OnlyIssueDrawsNumbers(w: World, e: Event)
    requires !(e.Use? && e.c.DoIssue?)
    ensures forall c: Id :: Counter(Next(w, e).store, c, INVOICE_SERIES) == Counter(w.store, c, INVOICE_SERIES)
  {
    hide Step, Next, TransactionOf;
    EventIsOneTransaction(w, e);
    NeverIssues(w, e);
    match TransactionOf(w, e)
    case None =>
    case Some(c) => CommandDrawsNoInvoiceNumber(w.store, c);
  }

  lemma {:induction false} NeverIssues(w: World, e: Event)
    requires !(e.Use? && e.c.DoIssue?)
    ensures TransactionOf(w, e).Some? ==> !TransactionOf(w, e).value.DoIssue?
  {
    hide ConversionRequest;
  }

  lemma {:induction false} CommandDrawsNoInvoiceNumber(s: Store, c: Command)
    requires !c.DoIssue?
    ensures forall d: Id :: Counter(Step(s, c), d, INVOICE_SERIES) == Counter(s, d, INVOICE_SERIES)
  {
    StepFrame(s, c);
    match c
    case DoCreditNote(id, invoiceId, reason, date) => NoteDraws(s, id, invoiceId, reason, date);
    case DoCreateQuote(id, quote, today) => QuoteDraws(s, id, quote, today);
    case _ => hide Step;
  }

  lemma {:induction false} NoteDraws(s: Store, id: Id, invoiceId: Id, reason: string, date: Date)
    ensures forall d: Id :: Counter(Step(s, DoCreditNote(id, invoiceId, reason, date)), d, INVOICE_SERIES) == Counter(s, d, INVOICE_SERIES)
  {
    assert INVOICE_SERIES[0] != CREDIT_NOTE_SERIES[0];
    hide Blank, CreditNoteReference, NoteKeyTaken, NoteFor;
  }

  lemma {:induction false} QuoteDraws(s: Store, id: Id, r: QuoteRequest, today: Date)
    ensures forall d: Id :: Counter(Step(s, DoCreateQuote(id, r, today)), d, INVOICE_SERIES) == Counter(s, d, INVOICE_SERIES)
  {
    assert INVOICE_SERIES[0] != QUOTE_SERIES[0];
    hide NewQuote, QuoteReference, QuoteKeyTaken, ValidRequest, ValidTotals;
  }

  // ------------------------------------------------------------------ the terms are preserved

  /** What was offered and what the draft and the issued invoice carry, texts and totals included. */
  ghost predicate FromOffer(inv: Invoice, q: Quote) {
    && inv.companyId == q.companyId && inv.clientId == q.clientId && inv.currency == q.currency
    && inv.lines == q.lines && inv.discount == q.discount
    && inv.comments == q.comments && inv.paymentTerms == q.terms && inv.template == q.template
    && inv.subtotal == q.subtotal && inv.totalDiscount == q.totalDiscount
    && inv.totalVat == q.totalVat && inv.totalTtc == q.totalTtc
  }

  ghost predicate SameTerms(a: Invoice, b: Invoice) {
    && a.companyId == b.companyId && a.clientId == b.clientId && a.currency == b.currency
    && a.lines == b.lines && a.discount == b.discount
    && a.comments == b.comments && a.paymentTerms == b.paymentTerms && a.template == b.template
    && a.subtotal == b.subtotal && a.totalDiscount == b.totalDiscount
    && a.totalVat == b.totalVat && a.totalTtc == b.totalTtc
  }

  ghost predicate SameOffer(a: Quote, b: Quote) {
    && a.companyId == b.companyId && a.clientId == b.clientId && a.currency == b.currency
    && a.lines == b.lines && a.discount == b.discount
    && a.comments == b.comments && a.terms == b.terms && a.template == b.template
    && a.subtotal == b.subtotal && a.totalDiscount == b.totalDiscount
    && a.totalVat == b.totalVat && a.totalTtc == b.totalTtc
  }

  /** An offer whose lines are numbered from one and whose totals are those of its lines. */
  ghost predicate PricedOffer(q: Quote) {
    && Renumbered(q.lines) == q.lines
    && TotalsFrozen(q.lines, q.discount, q.currency, q.subtotal, q.totalDiscount, q.totalVat, q.totalTtc)
  }

  /** Rows that survive a transaction keep their terms: no transaction re-prices anything. */
  ghost predicate TermsKept(s: Store, s': Store) {
    && (forall id :: id in s.invoices && id in s'.invoices ==> SameTerms(s.invoices[id], s'.invoices[id]))
    && (forall id :: id in s.quotes && id in s'.quotes ==> SameOffer(s.quotes[id], s'.quotes[id]))
  }

  lemma {:induction false} IssueKeepsTerms(s: Store, id: Id, onDate: Option<Date>, dueDate: Option<Date>, party: seq<Finding>)
    requires Inv(s) && IssueInvoice(s, id, onDate, dueDate, party).Ok?
    ensures TermsKept(s, IssueInvoice(s, id, onDate, dueDate, party).value)
  {
    hide Inv, CheckedInvoice, DisplayReference, MonthlyBucket, InvoiceKeyTaken, InvoiceNumbers, PaidMatches, PaidOn, IssueFindings,
         InvoicesOk, PaymentsOk, NotesOk, SeriesOk, TotalsOf;
    InvoiceFacts(s, id);
  }

  lemma {:induction false} CreateDraftKeepsTerms(s: Store, id: Id, r: DraftRequest, today: Date)
    requires Inv(s) && CreateDraft(s, id, r, today).Ok?
    ensures TermsKept(s, CreateDraft(s, id, r, today).value)
  {
    hide Inv, NewDraft, InvoicesOk, PaymentsOk, NotesOk, SeriesOk;
    StoreFacts(s);
  }

  lemma {:induction false} CreateQuoteKeepsTerms(s: Store, id: Id, r: QuoteRequest, today: Date)
    requires Inv(s) && CreateQuote(s, id, r, today).Ok?
    ensures TermsKept(s, CreateQuote(s, id, r, today).value)
  {
    hide Inv, NewQuote, QuoteReference, QuoteKeyTaken, QuotesOk, SeriesOk;
    QuoteIds(s);
  }

  lemma {:induction false} RowKeepsTerms(s: Store, s': Store, id: Id, inv: Invoice)
    requires id in s.invoices && s'.invoices == s.invoices[id := inv] && s'.quotes == s.quotes && SameTerms(s.invoices[id], inv)
    ensures TermsKept(s, s')
  {
  }

  lemma {:induction false} VoidKeepsTerms(s: Store, id: Id, reason: string, now: Date)
    requires VoidInvoice(s, id, reason, now).Ok?
    ensures TermsKept(s, VoidInvoice(s, id, reason, now).value)
  {
    hide Blank, TermsKept;
    var s' := VoidInvoice(s, id, reason, now).value;
    RowKeepsTerms(s, s', id, s'.invoices[id]);
  }

  lemma {:induction false} PayKeepsTerms(s: Store, id: Id, amount: real, paidOn: Date, reference: Option<string>)
    requires RecordPayment(s, id, amount, paidOn, reference).Ok?
    ensures TermsKept(s, RecordPayment(s, id, amount, paidOn, reference).value)
  {
    hide PaidOn, Major, TermsKept;
    var s' := RecordPayment(s, id, amount, paidOn, reference).value;
    RowKeepsTerms(s, s', id, s'.invoices[id]);
  }

  lemma {:induction false} NoteKeepsTerms(s: Store, id: Id, invoiceId: Id, reason: string, date: Date)
    requires IssueCreditNote(s, id, invoiceId, reason, date).Ok?
    ensures TermsKept(s, IssueCreditNote(s, id, invoiceId, reason, date).value)
  {
    hide Blank, CreditNoteReference, NoteKeyTaken, NoteFor, TermsKept;
    var s' := IssueCreditNote(s, id, invoiceId, reason, date).value;
    RowKeepsTerms(s, s', invoiceId, s'.invoices[invoiceId]);
  }

  lemma {:induction false} QuoteRowKeepsTerms(s: Store, id: Id, move: QuoteMove)
    requires TransitionQuote(s, id, move).Ok?
    ensures TermsKept(s, TransitionQuote(s, id, move).value)
  {
    hide AllowedTransition;
  }

  lemma {:induction false} DeletionKeepsTerms(s: Store, id: Id)
    ensures DeleteDraft(s, id).Ok? ==> TermsKept(s, DeleteDraft(s, id).value)
    ensures DeleteQuote(s, id).Ok? ==> TermsKept(s, DeleteQuote(s, id).value)
  {
  }

  lemma {:induction false} UntouchedKeepsTerms(s: Store, s': Store)
    requires s'.invoices == s.invoices && s'.quotes == s.quotes
    ensures TermsKept(s, s')
  {
  }

  lemma {:induction false} StepKeepsTerms(s: Store, c: Command)
    requires Inv(s)
    ensures TermsKept(s, Step(s, c))
  {
    StepFrame(s, c);
    hide Inv, TermsKept, AddCompany, UpdateCompany, AddClient, UpdateClient, CreateDraft, Duplicate, DeleteDraft, IssueInvoice, VoidInvoice,
         IssueCreditNote, RecordPayment, CreateQuote, TransitionQuote, DeleteQuote;
    if Execute(s, c).Ok? {
      match c
      case DoCreateDraft(id, draft, today) => CreateDraftKeepsTerms(s, id, draft, today);
      case DoDuplicate(sourceId, id, onDate, today) => DuplicateKeepsTerms(s, sourceId, id, onDate, today);
      case DoDeleteDraft(id) => DeletionKeepsTerms(s, id);
      case DoIssue(id, onDate, dueDate, party) => IssueKeepsTerms(s, id, onDate, dueDate, party);
      case DoVoid(id, reason, now) => VoidKeepsTerms(s, id, reason, now);
      case DoCreditNote(id, invoiceId, reason, date) => NoteKeepsTerms(s, id, invoiceId, reason, date);
      case DoPay(invoiceId, amount, paidOn, reference) => PayKeepsTerms(s, invoiceId, amount, paidOn, reference);
      case DoCreateQuote(id, quote, today) => CreateQuoteKeepsTerms(s, id, quote, today);
      case DoTransition(id, move) => QuoteRowKeepsTerms(s, id, move);
      case DoDeleteQuote(id) => DeletionKeepsTerms(s, id);
      case _ => UntouchedKeepsTerms(s, Step(s, c));
    } else {
      UntouchedKeepsTerms(s, s);
    }
  }

  lemma {:induction false} DuplicateKeepsTerms(s: Store, sourceId: Id, id: Id, onDate: Option<Date>, today: Date)
    requires Inv(s) && Duplicate(s, sourceId, id, onDate, today).Ok?
    ensures TermsKept(s, Duplicate(s, sourceId, id, onDate, today).value)
  {
    hide Inv, TermsKept, CreateDraft;
    CreateDraftKeepsTerms(s, id, DuplicateRequest(s.invoices[sourceId], onDate, today), today);
  }

  /** Every quote row is a priced offer, kept by all transactions. */
  ghost predicate OffersPriced(s: Store) {
    forall q :: q in s.quotes ==> PricedOffer(s.quotes[q])
  }

  lemma {:induction false} RenumberedTwice(lines: seq<InvoiceLine>)
    ensures Renumbered(Renumbered(lines)) == Renumbered(lines)
  {
  }

  lemma {:induction false} StepKeepsOffersPriced(s: Store, c: Command)
    requires Inv(s) && OffersPriced(s)
    ensures OffersPriced(Step(s, c))
  {
    hide Inv, Step, TermsKept, PricedOffer, SameOffer;
    var s' := Step(s, c);
    StepKeepsTerms(s, c);
    forall q | q in s'.quotes ensures PricedOffer(s'.quotes[q]) {
      if q in s.quotes {
        SameOffers(s, s', q);
        OfferStaysPriced(s.quotes[q], s'.quotes[q]);
      } else {
        NewQuotePriced(s, c, q);
      }
    }
  }

  lemma {:induction false} SameOffers(s: Store, s': Store, q: Id)
    requires TermsKept(s, s') && q in s.quotes && q in s'.quotes
    ensures SameOffer(s.quotes[q], s'.quotes[q])
  {
    hide SameOffer, SameTerms;
  }

  lemma {:induction false} StoreQuotes(s: Store)
    requires Inv(s)
    ensures QuotesOk(s.companies, s.clients, s.quotes)
  {
  }

  lemma {:induction false} OfferStaysPriced(a: Quote, b: Quote)
    requires PricedOffer(a) && SameOffer(a, b)
    ensures PricedOffer(b)
  {
    hide TotalsOf;
  }

  lemma {:induction false} CreatedQuotePriced(s: Store, id: Id, r: QuoteRequest, today: Date)
    requires CreateQuote(s, id, r, today).Ok?
    ensures var s' := CreateQuote(s, id, r, today).value;
            && s'.quotes == s.quotes[id := s'.quotes[id]] && PricedOffer(s'.quotes[id]) && !s'.quotes[id].status.Converted?
  {
    RenumberedTwice(r.lines);
    hide TotalsOf, QuoteReference, QuoteKeyTaken, Renumbered, ValidRequest;
  }

  /** Quotes come from `create` only. */
  lemma {:induction false} NewQuoteCreated(s: Store, c: Command, q: Id)
    requires q !in s.quotes && q in Step(s, c).quotes
    ensures c.DoCreateQuote? && CreateQuote(s, c.id, c.quote, c.today).Ok? && q == c.id && Step(s, c) == CreateQuote(s, c.id, c.quote, c.today).value
  {
    StepFrame(s, c);
    hide AddCompany, UpdateCompany, AddClient, UpdateClient, CreateDraft, Duplicate, DeleteDraft, IssueInvoice, VoidInvoice,
         IssueCreditNote, RecordPayment, NewQuote, QuoteReference, QuoteKeyTaken, MovedQuote, AllowedTransition, ValidRequest, ValidTotals;
  }

  lemma {:induction false} NewQuotePriced(s: Store, c: Command, q: Id)
    requires q !in s.quotes && q in Step(s, c).quotes
    ensures PricedOffer(Step(s, c).quotes[q])
  {
    hide *;
    NewQuoteCreated(s, c, q);
    CreatedQuotePriced(s, c.id, c.quote, c.today);
  }

  // ------------------------------------------------------------------ the worlds

  ghost predicate StageOk(s: Store, st: Stage) {
    && PricedOffer(st.quote)
    && st.quoteId in s.usedIds
    && (st.quoteId in s.quotes ==> SameOffer(s.quotes[st.quoteId], st.quote))
    && (st.HasDrafted? ==>
          && st.invoiceId in s.usedIds
          && (st.invoiceId in s.invoices ==> FromOffer(s.invoices[st.invoiceId], st.quote)))
  }

  /** A converted quote points at a draft made from it (or that was later deleted). */
  ghost predicate LinkOk(s: Store, q: Quote) {
    q.status.Converted? && q.convertedInvoiceId.Some? ==>
      && q.convertedInvoiceId.value in s.usedIds
      && (q.convertedInvoiceId.value in s.invoices ==> FromOffer(s.invoices[q.convertedInvoiceId.value], q))
  }

  ghost predicate WorldOk(w: World) {
    && Inv(w.store)
    && OffersPriced(w.store)
    && (forall pid :: pid in w.running ==> StageOk(w.store, w.running[pid]))
    && (forall q :: q in w.store.quotes ==> LinkOk(w.store, w.store.quotes[q]))
  }

  lemma {:induction false} StageStays(s: Store, s': Store, st: Stage)
    requires StageOk(s, st) && Later(s, s') && TermsKept(s, s')
    ensures StageOk(s', st)
  {
    hide PricedOffer, InvoiceKept;
  }

  lemma {:induction false} StageKept(s: Store, c: Command, st: Stage)
    requires Inv(s) && StageOk(s, st)
    ensures StageOk(Step(s, c), st)
  {
    hide *;
    StepIsLater(s, c);
    StepKeepsTerms(s, c);
    StageStays(s, Step(s, c), st);
  }

  lemma {:induction false} LinkStays(s: Store, s': Store, q: Id)
    requires q in s.quotes && LinkOk(s, s.quotes[q]) && q in s'.quotes && Later(s, s') && TermsKept(s, s')
    requires IsConverted(s, q) || !IsConverted(s', q)
    ensures LinkOk(s', s'.quotes[q])
  {
    hide InvoiceKept;
  }

  lemma {:induction false} LinkKept(s: Store, c: Command, q: Id)
    requires Inv(s) && q in s.quotes && LinkOk(s, s.quotes[q]) && q in Step(s, c).quotes
    requires !IsMark(c) || !(c.id == q)
    ensures LinkOk(Step(s, c), Step(s, c).quotes[q])
  {
    hide Inv, LinkOk, Step, IsMark, IsConverted;
    StepIsLater(s, c);
    StepKeepsTerms(s, c);
    hide Later, TermsKept;
    if !IsConverted(s, q) {
      UnmarkedStaysUnconverted(s, c, q);
    }
    LinkStays(s, Step(s, c), q);
  }

  lemma {:induction false} UnmarkedStaysUnconverted(s: Store, c: Command, q: Id)
    requires q in Step(s, c).quotes && !IsConverted(s, q) && (!IsMark(c) || c.id != q)
    ensures !IsConverted(Step(s, c), q)
  {
    StepFrame(s, c);
    hide AddCompany, UpdateCompany, AddClient, UpdateClient, CreateDraft, Duplicate, DeleteDraft, IssueInvoice, VoidInvoice,
         IssueCreditNote, RecordPayment, CreateQuote;
    if q !in s.quotes {
      NewQuoteCreated(s, c, q);
      CreatedQuotePriced(s, c.id, c.quote, c.today);
    } else if c.DoCreateQuote? && Execute(s, c).Ok? {
      CreatedQuotePriced(s, c.id, c.quote, c.today);
    }
  }

  // ------------------------------------------------------------------ every interleaving

  /** The draft a conversion asks for carries the offer's own terms and totals: re-computing the
      totals from the same lines changes nothing. */
  lemma {:induction false} DraftFromOffer(company: Company, q: Quote, issueDate: Option<Date>, dueDate: Option<Date>, today: Date)
    requires PricedOffer(q)
    ensures FromOffer(NewDraft(company, ConversionRequest(q, issueDate, dueDate, today), today), q)
  {
    hide TotalsOf;
  }

  lemma {:induction false} DraftedStageOk(s: Store, st: Stage, id: Id, issueDate: Option<Date>, dueDate: Option<Date>, today: Date)
    requires Inv(s) && StageOk(s, st)
    requires CreateDraft(s, id, ConversionRequest(st.quote, issueDate, dueDate, today), today).Ok?
    ensures var s' := CreateDraft(s, id, ConversionRequest(st.quote, issueDate, dueDate, today), today).value;
            StageOk(s', HasDrafted(st.quoteId, st.quote, id))
  {
    hide Inv, PricedOffer, TotalsOf, NewDraft, SameOffer, FromOffer;
    DraftFromOffer(s.companies[st.quote.companyId], st.quote, issueDate, dueDate, today);
  }

  lemma {:induction false} MarkedLinkOk(s: Store, st: Stage)
    requires Inv(s) && StageOk(s, st) && st.HasDrafted?
    requires st.quoteId in Step(s, DoTransition(st.quoteId, MarkConverted(st.invoiceId))).quotes
    requires st.quoteId in s.quotes && LinkOk(s, s.quotes[st.quoteId])
    ensures var s' := Step(s, DoTransition(st.quoteId, MarkConverted(st.invoiceId)));
            LinkOk(s', s'.quotes[st.quoteId])
  {
    hide Inv, PricedOffer;
  }

  /** One event of the interleaving. */
  lemma {:induction false} TransactionKeepsWorld(s: Store, c: Command, running: map<nat, Stage>)
    requires WorldOk(World(s, running)) && !IsMark(c)
    ensures WorldOk(World(Step(s, c), running))
  {
    hide Inv, Step, LinkOk, StageOk, OffersPriced;
    StepKeepsInv(s, c);
    StepKeepsOffersPriced(s, c);
    forall pid | pid in running ensures StageOk(Step(s, c), running[pid]) {
      StageKept(s, c, running[pid]);
    }
    forall q | q in Step(s, c).quotes ensures LinkOk(Step(s, c), Step(s, c).quotes[q]) {
      if q in s.quotes {
        LinkKept(s, c, q);
      } else {
        NewQuoteUnlinked(s, c, q);
      }
    }
  }

  lemma {:induction false} NewQuoteUnlinked(s: Store, c: Command, q: Id)
    requires q !in s.quotes && q in Step(s, c).quotes
    ensures LinkOk(Step(s, c), Step(s, c).quotes[q])
  {
    hide Step;
    assert IsMark(c) ==> !c.DoCreateQuote?;
    NewQuoteCreated(s, c, q);
    UnmarkedStaysUnconverted(s, c, q);
  }

  lemma {:induction false} MarkKeepsWorld(s: Store, running: map<nat, Stage>, pid: nat)
    requires WorldOk(World(s, running)) && pid in running && running[pid].HasDrafted?
    ensures WorldOk(World(Step(s, DoTransition(running[pid].quoteId, MarkConverted(running[pid].invoiceId))), running))
  {
    hide *;
    var st := running[pid];
    var c := DoTransition(st.quoteId, MarkConverted(st.invoiceId));
    WorldFacts(s, running);
    StepKeepsInv(s, c);
    StepKeepsOffersPriced(s, c);
    forall p | p in running ensures StageOk(Step(s, c), running[p]) {
      StageKept(s, c, running[p]);
    }
    forall q | q in Step(s, c).quotes ensures LinkOk(Step(s, c), Step(s, c).quotes[q]) {
      MarkKeepsLink(s, st, q);
    }
    WorldFrom(Step(s, c), running);
  }

  lemma {:induction false} WorldFacts(s: Store, running: map<nat, Stage>)
    requires WorldOk(World(s, running))
    ensures Inv(s) && OffersPriced(s) && (forall pid :: pid in running ==> StageOk(s, running[pid]))
    ensures forall q :: q in s.quotes ==> LinkOk(s, s.quotes[q])
  {
    hide Inv, OffersPriced, StageOk, LinkOk;
  }

  lemma {:induction false} WorldFrom(s: Store, running: map<nat, Stage>)
    requires Inv(s) && OffersPriced(s) && (forall pid :: pid in running ==> StageOk(s, running[pid]))
    requires forall q :: q in s.quotes ==> LinkOk(s, s.quotes[q])
    ensures WorldOk(World(s, running))
  {
    hide Inv, OffersPriced, StageOk, LinkOk;
  }

  lemma {:induction false} MarkKeepsLink(s: Store, st: Stage, q: Id)
    requires Inv(s) && StageOk(s, st) && st.HasDrafted? && forall x :: x in s.quotes ==> LinkOk(s, s.quotes[x])
    requires q in Step(s, DoTransition(st.quoteId, MarkConverted(st.invoiceId))).quotes
    ensures var s' := Step(s, DoTransition(st.quoteId, MarkConverted(st.invoiceId)));
            LinkOk(s', s'.quotes[q])
  {
    var c := DoTransition(st.quoteId, MarkConverted(st.invoiceId));
    assert !IsMark(c) || c.id == st.quoteId;
    hide *;
    MoveKeepsKeys(s, st.quoteId, MarkConverted(st.invoiceId));
    assert q in s.quotes.Keys;
    if q == st.quoteId {
      MarkedLinkOk(s, st);
    } else {
      LinkKept(s, c, q);
    }
  }

  lemma {:induction false} MoveKeepsKeys(s: Store, id: Id, move: QuoteMove)
    ensures Step(s, DoTransition(id, move)).quotes.Keys == s.quotes.Keys
  {
    hide MovedQuote, AllowedTransition, AddCompany, UpdateCompany, AddClient, UpdateClient, CreateDraft, Duplicate, DeleteDraft, IssueInvoice,
         VoidInvoice, IssueCreditNote, RecordPayment, CreateQuote, DeleteQuote;
  }

  lemma {:induction false} NextKeepsWorld(w: World, e: Event)
    requires WorldOk(w)
    ensures WorldOk(Next(w, e))
  {
    hide Inv, Step, LinkOk, StageOk, OffersPriced, CreateDraft, ConversionRequest;
    match e
    case Use(c) =>
      if !IsMark(c) { TransactionKeepsWorld(w.store, c, w.running); }
    case ConvertRead(pid, quoteId) =>
      if quoteId in w.store.quotes { ReadStageOk(w.store, quoteId); }
    case ConvertDraft(pid, id, issueDate, dueDate, today) =>
      if pid in w.running && w.running[pid].HasRead? {
        var st := w.running[pid];
        var request := ConversionRequest(st.quote, issueDate, dueDate, today);
        DraftStep(w.store, id, request, today);
        TransactionKeepsWorld(w.store, DoCreateDraft(id, request, today), w.running);
        if CreateDraft(w.store, id, request, today).Ok? {
          DraftedStageOk(w.store, st, id, issueDate, dueDate, today);
        }
      }
    case ConvertMark(pid) =>
      if pid in w.running && w.running[pid].HasDrafted? { MarkKeepsWorld(w.store, w.running, pid); }
    case Crash(_) =>
  }

  lemma {:induction false} DraftStep(s: Store, id: Id, r: DraftRequest, today: Date)
    ensures Step(s, DoCreateDraft(id, r, today)) == if CreateDraft(s, id, r, today).Ok? then CreateDraft(s, id, r, today).value else s
  {
    hide CreateDraft;
  }

  lemma {:induction false} ReadStageOk(s: Store, quoteId: Id)
    requires Inv(s) && OffersPriced(s) && quoteId in s.quotes
    ensures StageOk(s, HasRead(quoteId, s.quotes[quoteId]))
  {
    hide Inv, PricedOffer;
    QuoteIds(s);
  }

  lemma {:induction false} UnfoldKeepsWorld(w: World, es: seq<Event>)
    requires WorldOk(w)
    ensures WorldOk(Unfold(w, es))
  {
    hide WorldOk, Next;
    if es != [] {
      UnfoldKeepsWorld(w, es[..|es| - 1]);
      NextKeepsWorld(Unfold(w, es[..|es| - 1]), es[|es| - 1]);
    }
  }

  /** The promise: however conversions, crashes and other use-cases interleave from an empty
      organization on, a converted quote's invoice has the lines, the discount, the texts, the
      currency and the totals of the quote, as a draft and after it was issued, paid or voided. */
  lemma {:induction false} ConversionKeepsTheOffer(w: World, es: seq<Event>, q: Id)
    requires w.store == EMPTY && w.running == map[]
    requires IsConverted(Unfold(w, es).store, q)
    ensures var s := Unfold(w, es).store;
            && s.quotes[q].convertedInvoiceId.Some?
            && s.quotes[q].convertedInvoiceId.value in s.usedIds
            && (s.quotes[q].convertedInvoiceId.value in s.invoices ==>
                  FromOffer(s.invoices[s.quotes[q].convertedInvoiceId.value], s.quotes[q]))
  {
    hide Inv, Unfold, FromOffer, PricedOffer, StageOk, TotalsFrozen, SoundLines, PartiesExist;
    EmptyStoreOk(w.store);
    assert WorldOk(w);
    UnfoldKeepsWorld(w, es);
    StoreQuotes(Unfold(w, es).store);
  }

  // ------------------------------------------------------------------ what "once" does not cover

  /** An accepted quote's draft is never refused: the parties exist, the lines are valid and the
      totals are the quote's own. Only a reused identifier could stop it. */
  lemma {:induction false} DraftRefusedIff(s: Store, q: Quote, id: Id, issueDate: Option<Date>, dueDate: Option<Date>, today: Date)
    requires QuoteOk(s.companies, s.clients, q) && PricedOffer(q)
    ensures CreateDraft(s, id, ConversionRequest(q, issueDate, dueDate, today), today).Ok? <==> id !in s.usedIds
  {
    hide TotalsOf;
    DraftFromOffer(s.companies[q.companyId], q, issueDate, dueDate, today);
  }

  /** Two conversions that both read the quote before either marks it. */
  function Race(q: Id, a: Id, b: Id, today: Date): seq<Event> {
    [ConvertRead(0, q), ConvertRead(1, q), ConvertDraft(0, a, None, None, today), ConvertDraft(1, b, None, None, today),
     ConvertMark(0), ConvertMark(1)]
  }

  lemma {:induction false} UnfoldSnoc(w: World, es: seq<Event>, e: Event)
    ensures Unfold(w, es + [e]) == Next(Unfold(w, es), e)
  {
    assert (es + [e])[..|es|] == es;
  }

  /** The world at the end of the race. */
  function Raced(w: World, q: Id, a: Id, b: Id, today: Date): World {
    Next(Next(Drafted(w, q, a, b, today), ConvertMark(0)), ConvertMark(1))
  }

  function Drafted(w: World, q: Id, a: Id, b: Id, today: Date): World {
    var read := Next(Next(w, ConvertRead(0, q)), ConvertRead(1, q));
    Next(Next(read, ConvertDraft(0, a, None, None, today)), ConvertDraft(1, b, None, None, today))
  }

  lemma {:induction false} RaceRuns(w: World, q: Id, a: Id, b: Id, today: Date)
    ensures Unfold(w, Race(q, a, b, today)) == Raced(w, q, a, b, today)
  {
    hide Next;
    var e0, e1, e2 := ConvertRead(0, q), ConvertRead(1, q), ConvertDraft(0, a, None, None, today);
    var e3, e4, e5 := ConvertDraft(1, b, None, None, today), ConvertMark(0), ConvertMark(1);
    assert Race(q, a, b, today) == [] + [e0] + [e1] + [e2] + [e3] + [e4] + [e5];
    UnfoldSnoc(w, [], e0);
    UnfoldSnoc(w, [] + [e0], e1);
    UnfoldSnoc(w, [] + [e0] + [e1], e2);
    UnfoldSnoc(w, [] + [e0] + [e1] + [e2], e3);
    UnfoldSnoc(w, [] + [e0] + [e1] + [e2] + [e3], e4);
    UnfoldSnoc(w, [] + [e0] + [e1] + [e2] + [e3] + [e4], e5);
  }

  /** "Once" holds of the quote, not of the draft: two conversions racing leave two drafts of the
      same sale, and only one of them is what the quote points at. */
  lemma {:induction false} RaceLeavesTwoDrafts(w: World, q: Id, a: Id, b: Id, today: Date)
    requires WorldOk(w) && 0 !in w.running && 1 !in w.running
    requires q in w.store.quotes && w.store.quotes[q].status.Accepted?
    requires a != b && a !in w.store.usedIds && b !in w.store.usedIds
    ensures var s := Unfold(w, Race(q, a, b, today)).store;
            && IsConverted(s, q) && s.quotes[q].convertedInvoiceId == Some(a)
            && a in s.invoices && s.invoices[a].status.Draft?
            && b in s.invoices && s.invoices[b].status.Draft? && SameTerms(s.invoices[a], s.invoices[b])
  {
    hide Inv, WorldOk, Unfold, Race, Drafted, SameTerms, Next;
    RaceRuns(w, q, a, b, today);
    TwoDrafts(w, q, a, b, today);
    MarksInTurn(Drafted(w, q, a, b, today), q, w.store.quotes[q], a, b);
  }

  /** One mark: it goes through while the quote is accepted, and leaves the invoices alone. */
  lemma {:induction false} MarkTaken(d: World, pid: nat, q: Id, quote: Quote, id: Id)
    requires pid in d.running && d.running[pid] == HasDrafted(q, quote, id) && q in d.store.quotes
    ensures var w := Next(d, ConvertMark(pid));
            && w.running == d.running - {pid} && w.store.invoices == d.store.invoices && q in w.store.quotes
            && w.store.quotes[q] == if d.store.quotes[q].status.Accepted? then MovedQuote(d.store.quotes[q], MarkConverted(id)) else d.store.quotes[q]
  {
    hide AddCompany, UpdateCompany, AddClient, UpdateClient, CreateDraft, Duplicate, DeleteDraft, IssueInvoice, VoidInvoice, IssueCreditNote,
         RecordPayment, CreateQuote, DeleteQuote, MovedQuote;
    assert forall from: QuoteStatus :: AllowedTransition(from, Converted) <==> from.Accepted?;
  }

  /** The first mark wins; the second finds the quote converted and changes nothing. */
  lemma {:induction false} MarksInTurn(d: World, q: Id, quote: Quote, a: Id, b: Id)
    requires 0 in d.running && d.running[0] == HasDrafted(q, quote, a)
    requires 1 in d.running && d.running[1] == HasDrafted(q, quote, b)
    requires q in d.store.quotes && d.store.quotes[q].status.Accepted?
    ensures var s := Next(Next(d, ConvertMark(0)), ConvertMark(1)).store;
            && IsConverted(s, q) && s.quotes[q].convertedInvoiceId == Some(a)
            && s.invoices == d.store.invoices
  {
    hide Next;
    MarkTaken(d, 0, q, quote, a);
    MarkTaken(Next(d, ConvertMark(0)), 1, q, quote, b);
  }

  lemma {:induction false} BothRead(w: World, q: Id, quote: Quote)
    requires 0 !in w.running && 1 !in w.running
    requires q in w.store.quotes && w.store.quotes[q] == quote && quote.status.Accepted?
    ensures Next(Next(w, ConvertRead(0, q)), ConvertRead(1, q))
         == World(w.store, w.running[0 := HasRead(q, quote)][1 := HasRead(q, quote)])
  {
  }

  lemma {:induction false} Draws(w: World, pid: nat, q: Id, quote: Quote, id: Id, today: Date)
    requires pid in w.running && w.running[pid] == HasRead(q, quote)
    requires QuoteOk(w.store.companies, w.store.clients, quote) && PricedOffer(quote) && id !in w.store.usedIds
    ensures var w' := Next(w, ConvertDraft(pid, id, None, None, today));
            && w'.running == w.running[pid := HasDrafted(q, quote, id)]
            && w'.store.companies == w.store.companies && w'.store.clients == w.store.clients
            && w'.store.quotes == w.store.quotes && w'.store.usedIds == w.store.usedIds + {id}
            && w'.store.invoices == w.store.invoices[id := w'.store.invoices[id]]
            && w'.store.invoices[id].status.Draft? && FromOffer(w'.store.invoices[id], quote)
  {
    hide QuoteOk, PricedOffer, TotalsOf;
    DraftRefusedIff(w.store, quote, id, None, None, today);
    DraftFromOffer(w.store.companies[quote.companyId], quote, None, None, today);
    hide FromOffer;
  }

  lemma {:induction false} TwoDrafts(w: World, q: Id, a: Id, b: Id, today: Date)
    requires WorldOk(w) && 0 !in w.running && 1 !in w.running
    requires q in w.store.quotes && w.store.quotes[q].status.Accepted?
    requires a != b && a !in w.store.usedIds && b !in w.store.usedIds
    ensures var d := Drafted(w, q, a, b, today);
            && 0 in d.running && d.running[0] == HasDrafted(q, w.store.quotes[q], a)
            && 1 in d.running && d.running[1] == HasDrafted(q, w.store.quotes[q], b)
            && d.store.quotes == w.store.quotes
            && a in d.store.invoices && d.store.invoices[a].status.Draft?
            && b in d.store.invoices && d.store.invoices[b].status.Draft? && SameTerms(d.store.invoices[a], d.store.invoices[b])
  {
    hide *;
    var quote := w.store.quotes[q];
    OfferIsSound(w, q);
    BothRead(w, q, quote);
    var read := World(w.store, w.running[0 := HasRead(q, quote)][1 := HasRead(q, quote)]);
    DraftedThere(w, q, a, b, today);
    Draws(read, 0, q, quote, a, today);
    var once := Next(read, ConvertDraft(0, a, None, None, today));
    Draws(once, 1, q, quote, b, today);
    var twice := Next(once, ConvertDraft(1, b, None, None, today));
    assert twice.store.invoices[a] == once.store.invoices[a];
    SameSource(twice.store.invoices[a], twice.store.invoices[b], quote);
  }

  lemma {:induction false} OfferIsSound(w: World, q: Id)
    requires WorldOk(w) && q in w.store.quotes
    ensures QuoteOk(w.store.companies, w.store.clients, w.store.quotes[q]) && PricedOffer(w.store.quotes[q])
  {
    hide Inv, PricedOffer, QuoteOk, LinkOk, StageOk;
    StoreQuotes(w.store);
  }

  lemma {:induction false} SameSource(a: Invoice, b: Invoice, q: Quote)
    requires FromOffer(a, q) && FromOffer(b, q)
    ensures SameTerms(a, b)
  {
  }

  lemma {:induction false} DraftedThere(w: World, q: Id, a: Id, b: Id, today: Date)
    ensures Drafted(w, q, a, b, today)
         == Next(Next(Next(Next(w, ConvertRead(0, q)), ConvertRead(1, q)), ConvertDraft(0, a, None, None, today)),
                 ConvertDraft(1, b, None, None, today))
  {
    hide Next;
  }
}
