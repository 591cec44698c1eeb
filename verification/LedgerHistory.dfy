// Properties of whole runs: the fiscal series, what is frozen for good, and what only ever grows.
module LedgerHistory {
  import opened Common
  import opened Calendar
  import opened Money
  import opened Compliance
  import opened Numbering
  import opened Store
  import opened Transactions
  import opened LedgerInvariant

  // ------------------------------------------------------------------ the gapless series

  function NumbersOf(s: Store, companyId: Id): set<nat> {
    set id | id in s.invoices && s.invoices[id].companyId == companyId && s.invoices[id].sequence.Some?
      :: s.invoices[id].sequence.value
  }

  function NoteNumbersOf(s: Store, companyId: Id): set<nat> {
    set id | id in s.notes && s.notes[id].companyId == companyId :: s.notes[id].sequence
  }

  function UpTo(n: nat): (r: set<nat>)
    ensures forall k: nat :: k in r <==> 1 <= k <= n
  {
    if n == 0 then {} else UpTo(n - 1) + {n}
  }

  ghost predicate NumberedOnce(invoices: map<Id, Invoice>) {
    forall a, b :: a in invoices && b in invoices && a != b && invoices[a].companyId == invoices[b].companyId ==>
      invoices[a].sequence.Some? ==> invoices[a].sequence != invoices[b].sequence
  }

  ghost predicate NotesNumberedOnce(notes: map<Id, CreditNote>) {
    forall a, b :: a in notes && b in notes && a != b && notes[a].companyId == notes[b].companyId ==>
      notes[a].sequence != notes[b].sequence
  }

  /** After any run from an empty organization, with any refusals in it, the invoice numbers of each
      company are exactly 1..counter and no two of its invoices share one; so are its credit notes'. */
  lemma {:induction false} SeriesAreGapless(cs: seq<Command>, companyId: Id)
    ensures var s := Run(EMPTY, cs);
            && NumbersOf(s, companyId) == UpTo(Counter(s, companyId, INVOICE_SERIES))
            && NoteNumbersOf(s, companyId) == UpTo(Counter(s, companyId, CREDIT_NOTE_SERIES))
            && NumberedOnce(s.invoices) && NotesNumberedOnce(s.notes)
  {
    var empty := EMPTY;
    EmptyStoreOk(empty);
    RunKeepsInv(empty, cs);
    hide Run, Inv, NumberedOnce, NotesNumberedOnce, NumbersOf, NoteNumbersOf;
    var s := Run(empty, cs);
    StoreFacts(s);
    InvoiceSeriesAsSet(s, companyId);
    NoteSeriesAsSet(s, companyId);
  }

  lemma {:induction false} InvoiceSeriesAsSet(s: Store, companyId: Id)
    requires Gapless(InvoiceTickets(s.invoices), s.counters, INVOICE_SERIES)
    ensures NumbersOf(s, companyId) == UpTo(Counter(s, companyId, INVOICE_SERIES))
    ensures NumberedOnce(s.invoices)
  {
    var tickets := InvoiceTickets(s.invoices);
    forall n: nat ensures n in NumbersOf(s, companyId) <==> n in UpTo(Counter(s, companyId, INVOICE_SERIES)) {
      if n in UpTo(Counter(s, companyId, INVOICE_SERIES)) {
        assert InUse(tickets, companyId, n);
        var id :| id in tickets && tickets[id] == Ticket(companyId, n);
        assert s.invoices[id].sequence.value == n;
      }
      if n in NumbersOf(s, companyId) {
        var id :| id in s.invoices && s.invoices[id].companyId == companyId && s.invoices[id].sequence == Some(n);
        assert tickets[id] == Ticket(companyId, n);
      }
    }
    forall a, b | a in s.invoices && b in s.invoices && a != b && s.invoices[a].sequence.Some?
                  && s.invoices[a].companyId == s.invoices[b].companyId
      ensures s.invoices[a].sequence != s.invoices[b].sequence
    {
      assert a in tickets && (b in tickets ==> tickets[a] != tickets[b]);
    }
  }

  lemma {:induction false} NoteSeriesAsSet(s: Store, companyId: Id)
    requires Gapless(NoteTickets(s.notes), s.counters, CREDIT_NOTE_SERIES)
    ensures NoteNumbersOf(s, companyId) == UpTo(Counter(s, companyId, CREDIT_NOTE_SERIES))
    ensures NotesNumberedOnce(s.notes)
  {
    var tickets := NoteTickets(s.notes);
    forall n: nat ensures n in NoteNumbersOf(s, companyId) <==> n in UpTo(Counter(s, companyId, CREDIT_NOTE_SERIES)) {
      if n in UpTo(Counter(s, companyId, CREDIT_NOTE_SERIES)) {
        assert InUse(tickets, companyId, n);
        var id :| id in tickets && tickets[id] == Ticket(companyId, n);
        assert s.notes[id].sequence == n;
      }
      if n in NoteNumbersOf(s, companyId) {
        var id :| id in s.notes && s.notes[id].companyId == companyId && s.notes[id].sequence == n;
        assert tickets[id] == Ticket(companyId, n);
      }
    }
    forall a, b | a in s.notes && b in s.notes && a != b && s.notes[a].companyId == s.notes[b].companyId
      ensures s.notes[a].sequence != s.notes[b].sequence
    {
      assert a in tickets && b in tickets && tickets[a] != tickets[b];
    }
  }

  /** An issue that commits takes the number after the last one, whatever happened in between. */
  lemma {:induction false} IssueTakesTheNextNumber(s: Store, id: Id, onDate: Option<Date>, dueDate: Option<Date>, party: seq<Finding>)
    requires IssueInvoice(s, id, onDate, dueDate, party).Ok?
    ensures var s', c := IssueInvoice(s, id, onDate, dueDate, party).value, s.invoices[id].companyId;
            && s'.invoices[id].sequence == Some(Counter(s, c, INVOICE_SERIES) + 1)
            && (forall d: Id :: Counter(s', d, INVOICE_SERIES) == Counter(s, d, INVOICE_SERIES) + if d == c then 1 else 0)
            && (forall d: Id :: Counter(s', d, QUOTE_SERIES) == Counter(s, d, QUOTE_SERIES))
            && (forall d: Id :: Counter(s', d, CREDIT_NOTE_SERIES) == Counter(s, d, CREDIT_NOTE_SERIES))
  {
    hide MonthlyBucket, CheckedInvoice, DisplayReference, IssueFindings, InvoiceKeyTaken, InvoiceNumbers, BucketScope, AddDays,
         EffectiveDueDate;
    var inv := s.invoices[id];
    var issueDate := Or(onDate, inv.issueDate);
    var s' := IssueInvoice(s, id, onDate, dueDate, party).value;
    assert s'.counters == InvoiceNumbers(s.counters, inv, issueDate);
    NumbersAdvance(s.counters, inv, issueDate);
  }

  lemma {:induction false} NumbersAdvance(counters: map<Scope, nat>, inv: Invoice, issueDate: Date)
    ensures var after := InvoiceNumbers(counters, inv, issueDate);
            && (forall d: Id :: CounterOf(after, Scope(d, INVOICE_SERIES))
                  == CounterOf(counters, Scope(d, INVOICE_SERIES)) + if d == inv.companyId then 1 else 0)
            && (forall d: Id :: CounterOf(after, Scope(d, QUOTE_SERIES)) == CounterOf(counters, Scope(d, QUOTE_SERIES)))
            && (forall d: Id :: CounterOf(after, Scope(d, CREDIT_NOTE_SERIES)) == CounterOf(counters, Scope(d, CREDIT_NOTE_SERIES)))
  {
    BucketIsNoSeries(inv.clientId, issueDate.year, issueDate.month);
    assert INVOICE_SERIES[0] != CREDIT_NOTE_SERIES[0] && INVOICE_SERIES[0] != QUOTE_SERIES[0];
    hide MonthlyBucket;
  }

  // ------------------------------------------------------------------ what is frozen

  /** The legal content of an issued invoice. */
  ghost predicate SameDocument(a: Invoice, b: Invoice) {
    && a.companyId == b.companyId && a.clientId == b.clientId
    && a.reference == b.reference && a.sequence == b.sequence
    && a.issueDate == b.issueDate && a.dueDate == b.dueDate && a.currency == b.currency
    && a.lines == b.lines && a.discount == b.discount
    && a.comments == b.comments && a.paymentTerms == b.paymentTerms && a.template == b.template
    && a.subtotal == b.subtotal && a.totalDiscount == b.totalDiscount
    && a.totalVat == b.totalVat && a.totalTtc == b.totalTtc
  }

  function StatusRank(status: InvoiceStatus): nat {
    match status
    case Draft => 0
    case Issued => 1
    case PartiallyPaid => 2
    case Overdue => 2
    case Paid => 3
    case Voided => 4
  }

  /** What a later store still owes to an earlier one. */
  ghost predicate InvoiceKept(s: Store, s': Store, id: Id)
    requires id in s.invoices
  {
    && (s.invoices[id].sequence.Some? ==> id in s'.invoices && SameDocument(s.invoices[id], s'.invoices[id]))
    && (id in s'.invoices ==> StatusRank(s.invoices[id].status) <= StatusRank(s'.invoices[id].status))
    && (s.invoices[id].status.Voided? ==>
          && id in s'.invoices && s'.invoices[id] == s.invoices[id]
          && PaidOn(s'.payments, id) == PaidOn(s.payments, id))
  }

  ghost predicate Later(s: Store, s': Store) {
    && s.usedIds <= s'.usedIds
    && (forall scope :: CounterOf(s.counters, scope) <= CounterOf(s'.counters, scope))
    && s.payments <= s'.payments && s.audit <= s'.audit
    && (forall n :: n in s.notes ==> n in s'.notes && s'.notes[n] == s.notes[n])
    && (forall q :: q in s.quotes && s.quotes[q].status.Converted? ==> q in s'.quotes && s'.quotes[q] == s.quotes[q])
    && (forall id :: id in s.invoices ==> InvoiceKept(s, s', id))
    && (forall id :: id in s'.invoices && id in s.usedIds ==> id in s.invoices)
    && (forall id :: id in s'.quotes && id in s.usedIds ==> id in s.quotes)
  }

  lemma {:induction false} LaterTransitive(a: Store, b: Store, c: Store)
    requires IdsOk(a) && Later(a, b) && Later(b, c)
    ensures Later(a, c)
  {
    forall id | id in a.invoices ensures InvoiceKept(a, c, id) {
      assert InvoiceKept(a, b, id);
      if id in b.invoices {
        assert InvoiceKept(b, c, id);
      } else {
        assert id in b.usedIds;
      }
    }
  }

  /** A step that leaves the invoices and quotes alone. */
  lemma {:induction false} UntouchedIsLater(s: Store, s': Store)
    requires s.usedIds <= s'.usedIds && s.audit <= s'.audit
    requires s' == s.(companies := s'.companies, clients := s'.clients, usedIds := s'.usedIds, audit := s'.audit)
    ensures Later(s, s')
  {
  }

  /** A step that changes one invoice row, or adds one under a new id. */
  lemma {:induction false} RowIsLater(s: Store, s': Store, id: Id, inv: Invoice)
    requires s.usedIds <= s'.usedIds && s.audit <= s'.audit && s.payments <= s'.payments
    requires s' == s.(invoices := s.invoices[id := inv], notes := s'.notes, payments := s'.payments,
                      counters := s'.counters, usedIds := s'.usedIds, audit := s'.audit)
    requires forall scope :: CounterOf(s.counters, scope) <= CounterOf(s'.counters, scope)
    requires forall n :: n in s.notes ==> n in s'.notes && s'.notes[n] == s.notes[n]
    requires forall x :: x in s.invoices && s.invoices[x].status.Voided? ==> PaidOn(s'.payments, x) == PaidOn(s.payments, x)
    requires if id in s.invoices
             then !s.invoices[id].status.Voided? && StatusRank(s.invoices[id].status) <= StatusRank(inv.status)
                  && (s.invoices[id].sequence.Some? ==> SameDocument(s.invoices[id], inv))
             else id !in s.usedIds
    ensures Later(s, s')
  {
    forall x | x in s.invoices ensures InvoiceKept(s, s', x) {
    }
  }

  lemma {:induction false} CreateDraftIsLater(s: Store, id: Id, r: DraftRequest, today: Date)
    requires Inv(s) && CreateDraft(s, id, r, today).Ok?
    ensures Later(s, CreateDraft(s, id, r, today).value)
  {
    hide Inv, NewDraft, Later;
    StoreFacts(s);
    var s' := CreateDraft(s, id, r, today).value;
    RowIsLater(s, s', id, s'.invoices[id]);
  }

  lemma {:induction false} DeleteDraftIsLater(s: Store, id: Id)
    requires Inv(s) && DeleteDraft(s, id).Ok?
    ensures Later(s, DeleteDraft(s, id).value)
  {
    hide Inv, PaidOn;
    DraftHasNothing(s, id);
    var s' := DeleteDraft(s, id).value;
    forall x | x in s.invoices ensures InvoiceKept(s, s', x) {
    }
  }

  lemma {:induction false} IssueIsLater(s: Store, id: Id, onDate: Option<Date>, dueDate: Option<Date>, party: seq<Finding>)
    requires Inv(s) && IssueInvoice(s, id, onDate, dueDate, party).Ok?
    ensures Later(s, IssueInvoice(s, id, onDate, dueDate, party).value)
  {
    hide Inv, CheckedInvoice, DisplayReference, MonthlyBucket, InvoiceKeyTaken, Later, IssueFindings, PaidOn;
    DraftHasNothing(s, id);
    var s' := IssueInvoice(s, id, onDate, dueDate, party).value;
    RowIsLater(s, s', id, s'.invoices[id]);
  }

  lemma {:induction false} VoidIsLater(s: Store, id: Id, reason: string, now: Date)
    requires VoidInvoice(s, id, reason, now).Ok?
    ensures Later(s, VoidInvoice(s, id, reason, now).value)
  {
    hide Later, Blank, PaidOn;
    var s' := VoidInvoice(s, id, reason, now).value;
    RowIsLater(s, s', id, s'.invoices[id]);
  }

  lemma {:induction false} CreditNoteIsLater(s: Store, noteId: Id, invoiceId: Id, reason: string, date: Date)
    requires Inv(s) && IssueCreditNote(s, noteId, invoiceId, reason, date).Ok?
    ensures Later(s, IssueCreditNote(s, noteId, invoiceId, reason, date).value)
  {
    hide Inv, Later, PaidOn, InvoicesOk, PaymentsOk, NotesOk, SeriesOk;
    StoreFacts(s);
    CreditNoteRow(s, noteId, invoiceId, reason, date);
    hide IssueCreditNote, StatusRank;
    var s' := IssueCreditNote(s, noteId, invoiceId, reason, date).value;
    RowIsLater(s, s', invoiceId, s'.invoices[invoiceId]);
  }

  lemma {:induction false} CreditNoteRow(s: Store, noteId: Id, invoiceId: Id, reason: string, date: Date)
    requires IssueCreditNote(s, noteId, invoiceId, reason, date).Ok?
    ensures noteId !in s.usedIds && invoiceId in s.invoices && !s.invoices[invoiceId].status.Voided?
    ensures var s' := IssueCreditNote(s, noteId, invoiceId, reason, date).value;
            && invoiceId in s'.invoices && noteId in s'.notes
            && s' == s.(invoices := s.invoices[invoiceId := s'.invoices[invoiceId]], notes := s.notes[noteId := s'.notes[noteId]],
                        counters := s'.counters, usedIds := s.usedIds + {noteId}, audit := s'.audit)
            && s.audit <= s'.audit
            && (forall scope :: CounterOf(s.counters, scope) <= CounterOf(s'.counters, scope))
            && SameDocument(s.invoices[invoiceId], s'.invoices[invoiceId])
            && StatusRank(s.invoices[invoiceId].status) <= StatusRank(s'.invoices[invoiceId].status)
  {
    hide Blank, CreditNoteReference, NoteKeyTaken, MirroredLines;
  }

  lemma {:induction false} PayIsLater(s: Store, id: Id, amount: real, paidOn: Date, reference: Option<string>)
    requires Inv(s) && RecordPayment(s, id, amount, paidOn, reference).Ok?
    ensures Later(s, RecordPayment(s, id, amount, paidOn, reference).value)
  {
    hide Inv, Later, PaidOn, Major, InvoiceOk;
    InvoiceFacts(s, id);
    var s' := RecordPayment(s, id, amount, paidOn, reference).value;
    PaidRank(s, id, amount);
    var p := Payment(id, amount, s.invoices[id].currency, paidOn, reference);
    forall x | x in s.invoices && s.invoices[x].status.Voided? ensures PaidOn(s'.payments, x) == PaidOn(s.payments, x) {
      PaidOnSnoc(s.payments, p, x);
    }
    RowIsLater(s, s', id, s'.invoices[id]);
  }

  /** A fully paid invoice accepts nothing more, so receiving money never moves a status back. */
  lemma {:induction false} PaidRank(s: Store, id: Id, amount: real)
    requires Inv(s) && id in s.invoices && amount > 0.0
    requires PaidOn(s.payments, id) + amount <= Major(s.invoices[id].totalTtc, s.invoices[id].currency)
    ensures !s.invoices[id].status.Paid? && !s.invoices[id].status.Overdue?
  {
    hide Inv;
    InvoiceFacts(s, id);
  }

  lemma {:induction false} QuotesAreLater(s: Store, s': Store)
    requires s.usedIds <= s'.usedIds && s.audit <= s'.audit
    requires s' == s.(quotes := s'.quotes, counters := s'.counters, usedIds := s'.usedIds, audit := s'.audit)
    requires forall scope :: CounterOf(s.counters, scope) <= CounterOf(s'.counters, scope)
    requires forall q :: q in s.quotes && s.quotes[q].status.Converted? ==> q in s'.quotes && s'.quotes[q] == s.quotes[q]
    requires forall q :: q in s'.quotes && q in s.usedIds ==> q in s.quotes
    ensures Later(s, s')
  {
    forall x | x in s.invoices ensures InvoiceKept(s, s', x) {
    }
  }

  lemma {:induction false} QuoteStepsAreLater(s: Store, c: Command)
    requires Inv(s) && Execute(s, c).Ok?
    requires c.DoCreateQuote? || c.DoTransition? || c.DoDeleteQuote?
    ensures Later(s, Execute(s, c).value)
  {
    hide Inv, Later, NewQuote, MovedQuote, QuoteReference, QuoteKeyTaken, QuotesOk, SeriesOk, TotalsFrozen;
    QuoteIds(s);
    QuotesAreLater(s, Execute(s, c).value);
  }

  predicate PartyCommand(c: Command) {
    c.DoAddCompany? || c.DoUpdateCompany? || c.DoAddClient? || c.DoUpdateClient?
  }

  lemma {:induction false} DocumentStepIsLater(s: Store, c: Command)
    requires Inv(s) && Execute(s, c).Ok? && !PartyCommand(c)
    ensures Later(s, Execute(s, c).value)
  {
    hide Inv, Later, CreateDraft, DeleteDraft, IssueInvoice, VoidInvoice, IssueCreditNote, RecordPayment, CreateQuote, TransitionQuote,
         DeleteQuote;
    match c
    case DoCreateDraft(id, draft, today) => CreateDraftIsLater(s, id, draft, today);
    case DoDuplicate(sourceId, id, onDate, today) =>
      CreateDraftIsLater(s, id, DuplicateRequest(s.invoices[sourceId], onDate, today), today);
    case DoDeleteDraft(id) => DeleteDraftIsLater(s, id);
    case DoIssue(id, onDate, dueDate, party) => IssueIsLater(s, id, onDate, dueDate, party);
    case DoVoid(id, reason, now) => VoidIsLater(s, id, reason, now);
    case DoCreditNote(id, invoiceId, reason, date) => CreditNoteIsLater(s, id, invoiceId, reason, date);
    case DoPay(invoiceId, amount, paidOn, reference) => PayIsLater(s, invoiceId, amount, paidOn, reference);
    case DoCreateQuote(_, _, _) => QuoteStepsAreLater(s, c);
    case DoTransition(_, _) => QuoteStepsAreLater(s, c);
    case DoDeleteQuote(_) => QuoteStepsAreLater(s, c);
  }

  lemma {:induction false} PartyStepIsLater(s: Store, c: Command)
    requires Execute(s, c).Ok? && PartyCommand(c)
    ensures Later(s, Execute(s, c).value)
  {
    hide Later;
    UntouchedIsLater(s, Execute(s, c).value);
  }

  lemma {:induction false} StepIsLater(s: Store, c: Command)
    requires Inv(s)
    ensures Later(s, Step(s, c))
  {
    hide Inv, Later, Execute;
    if Execute(s, c).Err? {
      UntouchedIsLater(s, s);
    } else if PartyCommand(c) {
      PartyStepIsLater(s, c);
    } else {
      DocumentStepIsLater(s, c);
    }
  }

  /** Over every run: an issued invoice is never deleted and its legal content never changes again,
      statuses only move forward, a voided invoice and what was paid on it are settled for good,
      credit notes and converted quotes are permanent, counters never go back, and payments and the
      audit log are only ever appended to. */
  lemma {:induction false} RunIsLater(s: Store, cs: seq<Command>)
    requires Inv(s)
    ensures Later(s, Run(s, cs))
  {
    if cs == [] {
      UntouchedIsLater(s, s);
    } else {
      var before, c := Run(s, cs[..|cs| - 1]), cs[|cs| - 1];
      RunIsLater(s, cs[..|cs| - 1]);
      RunKeepsInv(s, cs[..|cs| - 1]);
      StepIsLater(before, c);
      IdsOfInv(s);
      hide Inv, Later, Step, IdsOk;
      LaterTransitive(s, before, Step(before, c));
    }
  }

  lemma {:induction false} IdsOfInv(s: Store)
    requires Inv(s)
    ensures IdsOk(s)
  {
  }

  // ------------------------------------------------------------------ what a reader of the ledger may rely on

  /** After any run the status of an invoice says what was received on it, and whether it is numbered. */
  lemma {:induction false} ReachableStatuses(s: Store, cs: seq<Command>, id: Id)
    requires s == EMPTY && id in Run(s, cs).invoices
    ensures var t := Run(s, cs);
            var inv, paid, total := t.invoices[id], PaidOn(t.payments, id), Major(t.invoices[id].totalTtc, t.invoices[id].currency);
            && 0.0 <= paid <= total && !inv.status.Overdue?
            && (inv.status.Draft? ==> paid == 0.0 && inv.sequence.None?)
            && (inv.status.Issued? ==> paid == 0.0 && inv.sequence.Some?)
            && (inv.status.PartiallyPaid? ==> 0.0 < paid < total && inv.sequence.Some?)
            && (inv.status.Paid? ==> paid == total && inv.sequence.Some?)
  {
    EmptyStoreOk(s);
    RunKeepsInv(s, cs);
    hide *;
    StatusFacts(Run(s, cs), id);
  }

  lemma {:induction false} StatusFacts(s: Store, id: Id)
    requires Inv(s) && id in s.invoices
    ensures var inv, paid, total := s.invoices[id], PaidOn(s.payments, id), Major(s.invoices[id].totalTtc, s.invoices[id].currency);
            && 0.0 <= paid <= total && !inv.status.Overdue?
            && (inv.status.Draft? ==> paid == 0.0 && inv.sequence.None?)
            && (inv.status.Issued? ==> paid == 0.0 && inv.sequence.Some?)
            && (inv.status.PartiallyPaid? ==> 0.0 < paid < total && inv.sequence.Some?)
            && (inv.status.Paid? ==> paid == total && inv.sequence.Some?)
  {
    hide Inv;
    InvoiceFacts(s, id);
  }

  /** And credit notes pair off with the invoices they voided, for the same amounts. */
  lemma {:induction false} NotesPairWithVoids(s: Store, cs: seq<Command>)
    requires s == EMPTY
    ensures var t := Run(s, cs);
            && (forall m, n :: m in t.notes && n in t.notes && t.notes[m].invoiceId == t.notes[n].invoiceId ==> m == n)
            && (forall id :: id in t.invoices && t.invoices[id].voidedBy.Some? ==>
                  t.invoices[id].status.Voided? && t.invoices[id].voidedBy.value in t.notes
                  && t.notes[t.invoices[id].voidedBy.value].invoiceId == id)
            && (forall n :: n in t.notes ==>
                  t.notes[n].invoiceId in t.invoices && t.invoices[t.notes[n].invoiceId].voidedBy == Some(n)
                  && t.notes[n].totalTtc == t.invoices[t.notes[n].invoiceId].totalTtc
                  && t.notes[n].totalVat == t.invoices[t.notes[n].invoiceId].totalVat)
  {
    EmptyStoreOk(s);
    RunKeepsInv(s, cs);
    hide Run, Inv;
    StoreFacts(Run(s, cs));
    forall id | id in Run(s, cs).invoices && Run(s, cs).invoices[id].voidedBy.Some?
      ensures Run(s, cs).invoices[id].status.Voided?
    {
      InvoiceFacts(Run(s, cs), id);
    }
  }

  lemma {:induction false} InvoicesForGood(t: Store, u: Store, id: Id)
    requires Inv(t) && Later(t, u) && id in t.invoices
    ensures t.invoices[id].sequence.Some? ==> id in u.invoices && SameDocument(t.invoices[id], u.invoices[id])
    ensures t.invoices[id].status.Voided? ==>
      id in u.invoices && u.invoices[id] == t.invoices[id] && PaidOn(u.payments, id) == PaidOn(t.payments, id)
    ensures id !in u.invoices ==> t.invoices[id].status.Draft?
  {
    hide Inv, SameDocument;
    InvoiceFacts(t, id);
    assert InvoiceKept(t, u, id);
  }

  /** Once numbered, an invoice is there for good with the same legal content and the same number; once
      voided, nothing about it changes again and no payment reaches it. */
  lemma {:induction false} NumberedIsForGood(s: Store, cs: seq<Command>, more: seq<Command>, id: Id)
    requires s == EMPTY && id in Run(s, cs).invoices
    ensures var t, u := Run(s, cs), Run(Run(s, cs), more);
            && (t.invoices[id].sequence.Some? ==> id in u.invoices && SameDocument(t.invoices[id], u.invoices[id]))
            && (t.invoices[id].status.Voided? ==>
                  id in u.invoices && u.invoices[id] == t.invoices[id] && PaidOn(u.payments, id) == PaidOn(t.payments, id))
            && (id !in u.invoices ==> t.invoices[id].status.Draft?)
  {
    EmptyStoreOk(s);
    RunKeepsInv(s, cs);
    hide *;
    RunIsLater(Run(s, cs), more);
    InvoicesForGood(Run(s, cs), Run(Run(s, cs), more), id);
  }
}
