// Further invariants of reachable ledgers, which a restore relies on: references are unique per
// company, and every counter belongs to a company of the ledger and names a series or a client.
module LedgerKeys {
  import opened Common
  import opened Calendar
  import opened Compliance
  import opened Numbering
  import opened Store
  import opened Transactions
  import opened Frames
  import opened LedgerInvariant
  import opened LedgerHistory
  import opened LedgerReferences

  ghost predicate InvoiceReferencesUnique(invoices: map<Id, Invoice>) {
    forall a, b :: a in invoices && b in invoices && a != b && invoices[a].companyId == invoices[b].companyId ==>
      invoices[a].reference.Some? ==> invoices[a].reference != invoices[b].reference
  }

  ghost predicate NoteReferencesUnique(notes: map<Id, CreditNote>) {
    forall a, b :: a in notes && b in notes && a != b && notes[a].companyId == notes[b].companyId ==>
      notes[a].reference != notes[b].reference
  }

  ghost predicate QuoteReferencesUnique(quotes: map<Id, Quote>) {
    forall a, b :: a in quotes && b in quotes && a != b && quotes[a].companyId == quotes[b].companyId ==>
      quotes[a].reference != quotes[b].reference
  }

  predicate IsSeries(name: string) {
    name == INVOICE_SERIES || name == CREDIT_NOTE_SERIES || name == QUOTE_SERIES
  }

  /** The scope is the bucket of one of the company's clients. */
  ghost predicate IsBucketOf(clients: map<Id, Client>, scope: Scope, c: Id, year: nat, month: nat) {
    c in clients && clients[c].companyId == scope.companyId && scope.name == MonthlyBucket(c, year, month)
  }

  ghost predicate KnownScope(companies: map<Id, Company>, clients: map<Id, Client>, scope: Scope) {
    scope.companyId in companies
    && (IsSeries(scope.name) || exists c: Id, year: nat, month: nat :: IsBucketOf(clients, scope, c, year, month))
  }

  ghost predicate ScopesOk(s: Store) {
    forall scope :: scope in s.counters ==> KnownScope(s.companies, s.clients, scope)
  }

  ghost predicate KeysOk(s: Store) {
    && InvoiceReferencesUnique(s.invoices) && NoteReferencesUnique(s.notes) && QuoteReferencesUnique(s.quotes)
    && ScopesOk(s)
  }

  // ------------------------------------------------------------------ references

  lemma {:induction false} IssueKeepsReferences(s: Store, id: Id, onDate: Option<Date>, dueDate: Option<Date>, party: seq<Finding>)
    requires IssueInvoice(s, id, onDate, dueDate, party).Ok? && InvoiceReferencesUnique(s.invoices)
    ensures InvoiceReferencesUnique(IssueInvoice(s, id, onDate, dueDate, party).value.invoices)
  {
    hide IssueFindings, DisplayReference, InvoiceNumbers, MonthlyBucket;
    var s' := IssueInvoice(s, id, onDate, dueDate, party).value;
    var issued := s'.invoices[id];
    assert s'.invoices == s.invoices[id := issued] && !InvoiceKeyTaken(s.invoices, id, issued);
    hide IssueInvoice, NumberInvoice;
  }

  lemma {:induction false} InvoicesKeepReferences(s: Store, c: Command)
    requires Inv(s) && InvoiceReferencesUnique(s.invoices)
    ensures InvoiceReferencesUnique(Step(s, c).invoices)
  {
    hide Inv, InvoiceReferencesUnique, IssueInvoice;
    if Execute(s, c).Ok? {
      if c.DoIssue? {
        IssueKeepsReferences(s, c.id, c.onDate, c.dueDate, c.party);
      } else {
        assert Step(s, c) == Execute(s, c).value;
        hide *;
        OnlyIssueNumbers(s, c);
        StepIsLater(s, c);
        StepKeepsInv(s, c);
        SameReferences(s, Step(s, c));
      }
    }
  }

  lemma {:induction false} SameReferences(s: Store, s': Store)
    requires Inv(s) && Inv(s') && Later(s, s') && InvoiceReferencesUnique(s.invoices) && NumbersFrom(s, s')
    ensures InvoiceReferencesUnique(s'.invoices)
  {
    hide Inv;
    forall id | id in s'.invoices && s'.invoices[id].reference.Some?
      ensures id in s.invoices && s.invoices[id].reference == s'.invoices[id].reference
           && s.invoices[id].companyId == s'.invoices[id].companyId
    {
      ReferenceMeansNumber(s', id);
      assert InvoiceKept(s, s', id);
    }
  }

  lemma {:induction false} ReferenceMeansNumber(s: Store, id: Id)
    requires Inv(s) && id in s.invoices
    ensures s.invoices[id].reference.Some? <==> s.invoices[id].sequence.Some?
  {
    hide Inv;
    InvoiceFacts(s, id);
  }

  lemma {:induction false} NewNoteKeepsReferences(s: Store, id: Id, invoiceId: Id, reason: string, date: Date)
    requires NoteReferencesUnique(s.notes) && IssueCreditNote(s, id, invoiceId, reason, date).Ok?
    ensures NoteReferencesUnique(IssueCreditNote(s, id, invoiceId, reason, date).value.notes)
  {
    hide Blank, CreditNoteReference, NoteFor;
    var s' := IssueCreditNote(s, id, invoiceId, reason, date).value;
    assert s'.notes == s.notes[id := s'.notes[id]] && !NoteKeyTaken(s.notes, s'.notes[id]);
    hide IssueCreditNote;
  }

  lemma {:induction false} NotesKeepReferences(s: Store, c: Command)
    requires NoteReferencesUnique(s.notes)
    ensures NoteReferencesUnique(Step(s, c).notes)
  {
    StepFrame(s, c);
    hide NoteReferencesUnique, IssueCreditNote;
    if c.DoCreditNote? && Execute(s, c).Ok? {
      NewNoteKeepsReferences(s, c.id, c.invoiceId, c.reason, c.date);
    } else {
      hide AddCompany, UpdateCompany, AddClient, UpdateClient, CreateDraft, Duplicate, DeleteDraft, IssueInvoice, VoidInvoice,
           RecordPayment, CreateQuote, TransitionQuote, DeleteQuote;
    }
  }

  lemma {:induction false} NewQuoteKeepsReferences(s: Store, id: Id, r: QuoteRequest, today: Date)
    requires QuoteReferencesUnique(s.quotes) && CreateQuote(s, id, r, today).Ok?
    ensures QuoteReferencesUnique(CreateQuote(s, id, r, today).value.quotes)
  {
    hide QuoteReference, NewQuote, ValidRequest, ValidTotals;
    var s' := CreateQuote(s, id, r, today).value;
    assert s'.quotes == s.quotes[id := s'.quotes[id]] && !QuoteKeyTaken(s.quotes, s'.quotes[id]);
    hide CreateQuote;
  }

  lemma {:induction false} MovedQuoteKeepsReferences(s: Store, id: Id, move: QuoteMove)
    requires QuoteReferencesUnique(s.quotes) && TransitionQuote(s, id, move).Ok?
    ensures QuoteReferencesUnique(TransitionQuote(s, id, move).value.quotes)
  {
    hide AllowedTransition;
    assert MovedQuote(s.quotes[id], move).reference == s.quotes[id].reference;
    assert MovedQuote(s.quotes[id], move).companyId == s.quotes[id].companyId;
    hide MovedQuote;
  }

  lemma {:induction false} QuotesKeepReferences(s: Store, c: Command)
    requires QuoteReferencesUnique(s.quotes)
    ensures QuoteReferencesUnique(Step(s, c).quotes)
  {
    StepFrame(s, c);
    hide AddCompany, UpdateCompany, AddClient, UpdateClient, CreateDraft, Duplicate, DeleteDraft, IssueInvoice, VoidInvoice,
         IssueCreditNote, RecordPayment, CreateQuote, TransitionQuote;
    if Execute(s, c).Ok? {
      match c
      case DoCreateQuote(id, quote, today) => NewQuoteKeepsReferences(s, id, quote, today);
      case DoTransition(id, move) => MovedQuoteKeepsReferences(s, id, move);
      case _ =>
    }
  }

  // ------------------------------------------------------------------ scopes

  lemma {:induction false} AdvancedScopes(s: Store, counters: map<Scope, nat>, scope: Scope)
    requires forall x :: x in counters ==> KnownScope(s.companies, s.clients, x)
    requires KnownScope(s.companies, s.clients, scope)
    ensures forall x :: x in Advanced(counters, scope) ==> KnownScope(s.companies, s.clients, x)
  {
    hide KnownScope;
  }

  lemma {:induction false} GrownScopes(s: Store, s': Store)
    requires ScopesOk(s) && s'.counters == s.counters && s.companies.Keys <= s'.companies.Keys
    requires forall id :: id in s.clients ==> id in s'.clients && s'.clients[id].companyId == s.clients[id].companyId
    ensures ScopesOk(s')
  {
    hide MonthlyBucket;
    forall scope | scope in s'.counters ensures KnownScope(s'.companies, s'.clients, scope) {
      assert KnownScope(s.companies, s.clients, scope);
      if !IsSeries(scope.name) {
        var c: Id, year: nat, month: nat :| IsBucketOf(s.clients, scope, c, year, month);
        assert IsBucketOf(s'.clients, scope, c, year, month);
      }
    }
  }

  lemma {:induction false} NoteScopes(s: Store, id: Id, invoiceId: Id, reason: string, date: Date)
    requires ScopesOk(s) && IssueCreditNote(s, id, invoiceId, reason, date).Ok?
    ensures ScopesOk(IssueCreditNote(s, id, invoiceId, reason, date).value)
  {
    hide KnownScope, CreditNoteReference, NoteKeyTaken, NoteFor, Blank;
    SeriesKnown(s, s.invoices[invoiceId].companyId);
    AdvancedScopes(s, s.counters, Scope(s.invoices[invoiceId].companyId, CREDIT_NOTE_SERIES));
  }

  lemma {:induction false} QuoteScopes(s: Store, id: Id, quote: QuoteRequest, today: Date)
    requires ScopesOk(s) && CreateQuote(s, id, quote, today).Ok?
    ensures ScopesOk(CreateQuote(s, id, quote, today).value)
  {
    hide KnownScope, QuoteReference, QuoteKeyTaken, NewQuote;
    SeriesKnown(s, quote.companyId);
    AdvancedScopes(s, s.counters, Scope(quote.companyId, QUOTE_SERIES));
  }

  /** Who may draw numbers, and from which scopes. */
  lemma {:induction false} StepScopes(s: Store, c: Command)
    requires Inv(s) && ScopesOk(s) && Execute(s, c).Ok? && (c.DoIssue? || c.DoCreditNote? || c.DoCreateQuote?)
    ensures ScopesOk(Execute(s, c).value)
  {
    hide Inv, ScopesOk, IssueInvoice, IssueCreditNote, CreateQuote;
    match c
    case DoIssue(id, onDate, dueDate, party) => IssueScopes(s, id, onDate, dueDate, party);
    case DoCreditNote(id, invoiceId, reason, date) => NoteScopes(s, id, invoiceId, reason, date);
    case DoCreateQuote(id, quote, today) => QuoteScopes(s, id, quote, today);
  }

  lemma {:induction false} SeriesKnown(s: Store, companyId: Id)
    requires companyId in s.companies
    ensures KnownScope(s.companies, s.clients, Scope(companyId, INVOICE_SERIES))
    ensures KnownScope(s.companies, s.clients, Scope(companyId, CREDIT_NOTE_SERIES))
    ensures KnownScope(s.companies, s.clients, Scope(companyId, QUOTE_SERIES))
  {
  }

  /** What an issue draws. */
  lemma {:induction false} IssueDraws(s: Store, id: Id, onDate: Option<Date>, dueDate: Option<Date>, party: seq<Finding>)
    requires IssueInvoice(s, id, onDate, dueDate, party).Ok?
    ensures var s', inv := IssueInvoice(s, id, onDate, dueDate, party).value, s.invoices[id];
            && s'.companies == s.companies && s'.clients == s.clients
            && s'.counters == Advanced(Advanced(s.counters, Scope(inv.companyId, INVOICE_SERIES)), BucketScope(inv, Or(onDate, inv.issueDate)))
  {
    hide IssueFindings, DisplayReference, InvoiceKeyTaken, BucketScope, EffectiveDueDate, IssuedInvoice, Advanced;
  }

  lemma {:induction false} IssueParties(s: Store, id: Id)
    requires Inv(s) && id in s.invoices
    ensures PartiesExist(s.companies, s.clients, s.invoices[id].companyId, s.invoices[id].clientId) && s.invoices[id].companyId in s.companies
  {
    hide Inv;
    InvoiceFacts(s, id);
    hide SoundLines, TotalsFrozen, LifecycleOk, PaidMatches, PaidOn, InvoicesOk, PaymentsOk, NotesOk, SeriesOk;
  }

  lemma {:induction false} IssueScopes(s: Store, id: Id, onDate: Option<Date>, dueDate: Option<Date>, party: seq<Finding>)
    requires Inv(s) && ScopesOk(s) && IssueInvoice(s, id, onDate, dueDate, party).Ok?
    ensures ScopesOk(IssueInvoice(s, id, onDate, dueDate, party).value)
  {
    IssueDraws(s, id, onDate, dueDate, party);
    IssueParties(s, id);
    hide Inv, IssueInvoice, KnownScope, BucketScope, Advanced, PartiesExist;
    var inv := s.invoices[id];
    var onDay := Or(onDate, inv.issueDate);
    SeriesKnown(s, inv.companyId);
    BucketKnown(s, inv, onDay);
    AdvancedScopes(s, s.counters, Scope(inv.companyId, INVOICE_SERIES));
    AdvancedScopes(s, Advanced(s.counters, Scope(inv.companyId, INVOICE_SERIES)), BucketScope(inv, onDay));
  }

  lemma {:induction false} BucketKnown(s: Store, inv: Invoice, d: Date)
    requires PartiesExist(s.companies, s.clients, inv.companyId, inv.clientId)
    ensures KnownScope(s.companies, s.clients, BucketScope(inv, d))
  {
    assert IsBucketOf(s.clients, BucketScope(inv, d), inv.clientId, d.year, d.month);
  }

  lemma {:induction false} OthersKeepCounters(s: Store, c: Command)
    requires IdsOk(s) && Execute(s, c).Ok? && !c.DoIssue? && !c.DoCreditNote? && !c.DoCreateQuote?
    ensures var s' := Execute(s, c).value;
            && s'.counters == s.counters && s.companies.Keys <= s'.companies.Keys
            && forall id :: id in s.clients ==> id in s'.clients && s'.clients[id].companyId == s.clients[id].companyId
  {
    StepFrame(s, c);
    hide CreateDraft, Duplicate, DeleteDraft, IssueInvoice, VoidInvoice, IssueCreditNote, RecordPayment, CreateQuote, TransitionQuote,
         DeleteQuote;
  }

  // ------------------------------------------------------------------ every run

  lemma {:induction false} StepKeepsKeys(s: Store, c: Command)
    requires Inv(s) && KeysOk(s)
    ensures KeysOk(Step(s, c))
  {
    InvoicesKeepReferences(s, c);
    NotesKeepReferences(s, c);
    QuotesKeepReferences(s, c);
    IdsOfInv(s);
    hide Inv, Execute, InvoiceReferencesUnique, NoteReferencesUnique, QuoteReferencesUnique, ScopesOk, IdsOk;
    if Execute(s, c).Ok? {
      if c.DoIssue? || c.DoCreditNote? || c.DoCreateQuote? {
        StepScopes(s, c);
      } else {
        OthersKeepCounters(s, c);
        GrownScopes(s, Execute(s, c).value);
      }
    }
  }

  lemma {:induction false} RunKeepsKeys(s: Store, cs: seq<Command>)
    requires Inv(s) && KeysOk(s)
    ensures KeysOk(Run(s, cs))
  {
    hide Inv, Step, KeysOk;
    if cs != [] {
      RunKeepsKeys(s, cs[..|cs| - 1]);
      RunKeepsInv(s, cs[..|cs| - 1]);
      StepKeepsKeys(Run(s, cs[..|cs| - 1]), cs[|cs| - 1]);
    }
  }

  lemma {:induction false} EmptyKeysOk(s: Store)
    requires s == EMPTY
    ensures KeysOk(s)
  {
    assert s.counters == map[];
  }

  /** Every store an empty organization can reach. */
  lemma {:induction false} ReachableKeys(cs: seq<Command>)
    ensures Inv(Run(EMPTY, cs)) && KeysOk(Run(EMPTY, cs))
  {
    hide Inv, Run, KeysOk;
    var empty := EMPTY;
    EmptyStoreOk(empty);
    EmptyKeysOk(empty);
    RunKeepsInv(empty, cs);
    RunKeepsKeys(empty, cs);
  }
}
