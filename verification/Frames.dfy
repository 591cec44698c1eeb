// Which tables a transaction may write: everything else it leaves as it was.
module Frames {
  import opened Common
  import opened Calendar
  import opened Money
  import opened Compliance
  import opened Numbering
  import opened Store
  import opened Transactions

  datatype Tables = Tables(parties: bool, invoices: bool, quotes: bool, notes: bool, payments: bool, counters: bool)

  const PARTIES := Tables(true, false, false, false, false, false)
  const INVOICES := Tables(false, true, false, false, false, false)
  const QUOTES := Tables(false, false, true, false, false, false)

  /** What each use-case may write. */
  function WrittenBy(c: Command): Tables {
    match c
    case DoAddCompany(_, _) => PARTIES
    case DoUpdateCompany(_, _) => PARTIES
    case DoAddClient(_, _) => PARTIES
    case DoUpdateClient(_, _) => PARTIES
    case DoCreateDraft(_, _, _) => INVOICES
    case DoDuplicate(_, _, _, _) => INVOICES
    case DoDeleteDraft(_) => INVOICES
    case DoIssue(_, _, _, _) => INVOICES.(counters := true)
    case DoVoid(_, _, _) => INVOICES
    case DoCreditNote(_, _, _, _) => INVOICES.(notes := true, counters := true)
    case DoPay(_, _, _, _) => INVOICES.(payments := true)
    case DoCreateQuote(_, _, _) => QUOTES.(counters := true)
    case DoTransition(_, _) => QUOTES
    case DoDeleteQuote(_) => QUOTES
  }

  predicate SameOutside(s: Store, s': Store, t: Tables) {
    && (t.parties || (s'.companies == s.companies && s'.clients == s.clients))
    && (t.invoices || s'.invoices == s.invoices)
    && (t.quotes || s'.quotes == s.quotes)
    && (t.notes || s'.notes == s.notes)
    && (t.payments || s'.payments == s.payments)
    && (t.counters || s'.counters == s.counters)
  }

  lemma {:induction false} PartyFrame(s: Store, c: Command)
    requires Execute(s, c).Ok? && (c.DoAddCompany? || c.DoUpdateCompany? || c.DoAddClient? || c.DoUpdateClient?)
    ensures SameOutside(s, Execute(s, c).value, PARTIES)
  {
    hide CreateDraft, Duplicate, DeleteDraft, IssueInvoice, VoidInvoice, IssueCreditNote, RecordPayment, CreateQuote, TransitionQuote, DeleteQuote;
  }

  lemma {:induction false} DraftFrame(s: Store, id: Id, r: DraftRequest, today: Date)
    requires CreateDraft(s, id, r, today).Ok?
    ensures var s' := CreateDraft(s, id, r, today).value;
            && SameOutside(s, s', INVOICES) && r.companyId in s.companies
            && s'.invoices == s.invoices[id := NewDraft(s.companies[r.companyId], r, today)]
  {
    hide NewDraft, ValidRequest, ValidTotals;
  }

  lemma {:induction false} DuplicateFrame(s: Store, sourceId: Id, id: Id, onDate: Option<Date>, today: Date)
    requires Duplicate(s, sourceId, id, onDate, today).Ok?
    ensures SameOutside(s, Duplicate(s, sourceId, id, onDate, today).value, INVOICES)
  {
    hide CreateDraft, SameOutside;
    DraftFrame(s, id, DuplicateRequest(s.invoices[sourceId], onDate, today), today);
  }

  lemma {:induction false} DeletionFrame(s: Store, id: Id)
    ensures DeleteDraft(s, id).Ok? ==> SameOutside(s, DeleteDraft(s, id).value, INVOICES)
    ensures DeleteQuote(s, id).Ok? ==> SameOutside(s, DeleteQuote(s, id).value, QUOTES)
  {
  }

  lemma {:induction false} IssueFrame(s: Store, id: Id, onDate: Option<Date>, dueDate: Option<Date>, party: seq<Finding>)
    requires IssueInvoice(s, id, onDate, dueDate, party).Ok?
    ensures SameOutside(s, IssueInvoice(s, id, onDate, dueDate, party).value, INVOICES.(counters := true))
  {
    hide IssueFindings, EffectiveDueDate, DisplayReference, InvoiceKeyTaken, InvoiceNumbers, IssuedInvoice, BucketScope;
  }

  lemma {:induction false} VoidFrame(s: Store, id: Id, reason: string, now: Date)
    requires VoidInvoice(s, id, reason, now).Ok?
    ensures SameOutside(s, VoidInvoice(s, id, reason, now).value, INVOICES)
  {
    hide Blank;
  }

  lemma {:induction false} CreditNoteFrame(s: Store, id: Id, invoiceId: Id, reason: string, date: Date)
    requires IssueCreditNote(s, id, invoiceId, reason, date).Ok?
    ensures SameOutside(s, IssueCreditNote(s, id, invoiceId, reason, date).value, INVOICES.(notes := true, counters := true))
  {
    hide Blank, CreditNoteReference, NoteKeyTaken, NoteFor, Advanced;
  }

  lemma {:induction false} PayFrame(s: Store, id: Id, amount: real, paidOn: Date, reference: Option<string>)
    requires RecordPayment(s, id, amount, paidOn, reference).Ok?
    ensures SameOutside(s, RecordPayment(s, id, amount, paidOn, reference).value, INVOICES.(payments := true))
  {
    hide PaidOn, Major;
  }

  lemma {:induction false} CreateQuoteFrame(s: Store, id: Id, r: QuoteRequest, today: Date)
    requires CreateQuote(s, id, r, today).Ok?
    ensures SameOutside(s, CreateQuote(s, id, r, today).value, QUOTES.(counters := true))
  {
    hide NewQuote, QuoteReference, QuoteKeyTaken, ValidRequest, ValidTotals, Advanced;
  }

  lemma {:induction false} TransitionFrame(s: Store, id: Id, move: QuoteMove)
    requires TransitionQuote(s, id, move).Ok?
    ensures SameOutside(s, TransitionQuote(s, id, move).value, QUOTES)
  {
    hide MovedQuote, AllowedTransition, TargetOf;
  }

  /** Whatever a transaction is not said to write is the same after it, accepted or refused. */
  lemma {:induction false} StepFrame(s: Store, c: Command)
    ensures SameOutside(s, Step(s, c), WrittenBy(c))
  {
    hide AddCompany, UpdateCompany, AddClient, UpdateClient, CreateDraft, Duplicate, DeleteDraft, IssueInvoice, VoidInvoice,
         IssueCreditNote, RecordPayment, CreateQuote, TransitionQuote, DeleteQuote;
    if Execute(s, c).Ok? {
      hide SameOutside;
      match c
      case DoAddCompany(_, _) => PartyFrame(s, c);
      case DoUpdateCompany(_, _) => PartyFrame(s, c);
      case DoAddClient(_, _) => PartyFrame(s, c);
      case DoUpdateClient(_, _) => PartyFrame(s, c);
      case DoCreateDraft(id, draft, today) => DraftFrame(s, id, draft, today);
      case DoDuplicate(sourceId, id, onDate, today) => DuplicateFrame(s, sourceId, id, onDate, today);
      case DoDeleteDraft(id) => DeletionFrame(s, id);
      case DoIssue(id, onDate, dueDate, party) => IssueFrame(s, id, onDate, dueDate, party);
      case DoVoid(id, reason, now) => VoidFrame(s, id, reason, now);
      case DoCreditNote(id, invoiceId, reason, date) => CreditNoteFrame(s, id, invoiceId, reason, date);
      case DoPay(invoiceId, amount, paidOn, reference) => PayFrame(s, invoiceId, amount, paidOn, reference);
      case DoCreateQuote(id, quote, today) => CreateQuoteFrame(s, id, quote, today);
      case DoTransition(id, move) => TransitionFrame(s, id, move);
      case DoDeleteQuote(id) => DeletionFrame(s, id);
    }
  }
}
