// Display references: what makes them unique per client, and when the unique constraint on
// (company, reference) refuses an issue.
module LedgerReferences {
  import opened Common
  import opened Calendar
  import opened Decimals
  import opened Compliance
  import opened Numbering
  import opened Store
  import opened Transactions
  import opened Frames
  import opened LedgerInvariant
  import opened LedgerHistory

  function Compose(prefix: string, p: DisplayParts): string {
    prefix + p.initials + Padded(p.month, 2) + Padded(p.bucketSeq, 2) + Decimal(p.year)
  }

  /** The per-client monthly counter an issued invoice drew its display number from. */
  function HomeBucket(inv: Invoice): Scope {
    BucketScope(inv, inv.issueDate)
  }

  function PartsOf(companies: map<Id, Company>, inv: Invoice): Option<DisplayParts> {
    if inv.reference.None? || inv.companyId !in companies then None
    else DecodeDisplay(companies[inv.companyId].prefix, inv.reference.value)
  }

  /** The reference of a numbered invoice is in the format, and its number was drawn from the bucket. */
  ghost predicate ReferenceOk(companies: map<Id, Company>, counters: map<Scope, nat>, inv: Invoice) {
    var p := PartsOf(companies, inv);
    && p.Some?
    && inv.reference.value == Compose(companies[inv.companyId].prefix, p.value)
    && p.value.month == inv.issueDate.month && p.value.year == inv.issueDate.year
    && 1 <= p.value.bucketSeq <= CounterOf(counters, HomeBucket(inv))
  }

  ghost predicate ReferencesOk(companies: map<Id, Company>, counters: map<Scope, nat>, invoices: map<Id, Invoice>) {
    && (forall id :: id in invoices && invoices[id].sequence.Some? ==> ReferenceOk(companies, counters, invoices[id]))
    && (forall a, b :: a in invoices && b in invoices && a != b && invoices[a].sequence.Some? && invoices[b].sequence.Some? ==>
          HomeBucket(invoices[a]) == HomeBucket(invoices[b]) ==>
          PartsOf(companies, invoices[a]) != PartsOf(companies, invoices[b]))
  }

  ghost predicate RefsOk(s: Store) {
    ReferencesOk(s.companies, s.counters, s.invoices)
  }

  /** The company prefix is the only thing a reference depends on that can be edited afterwards. */
  predicate KeepsPrefix(s: Store, c: Command) {
    c.DoUpdateCompany? && c.id in s.companies ==> c.company.prefix == s.companies[c.id].prefix
  }

  predicate KeepPrefixes(s: Store, cs: seq<Command>) {
    cs == [] || (KeepPrefixes(s, cs[..|cs| - 1]) && KeepsPrefix(Run(s, cs[..|cs| - 1]), cs[|cs| - 1]))
  }

  // ------------------------------------------------------------------ steps that number nothing

  ghost predicate SamePrefixes(s: Store, s': Store) {
    forall c :: c in s.companies ==> c in s'.companies && s'.companies[c].prefix == s.companies[c].prefix
  }

  lemma {:induction false} ReferenceKept(s: Store, s': Store, inv: Invoice, inv': Invoice)
    requires ReferenceOk(s.companies, s.counters, inv) && SameDocument(inv, inv') && SamePrefixes(s, s')
    requires forall scope :: CounterOf(s.counters, scope) <= CounterOf(s'.counters, scope)
    ensures ReferenceOk(s'.companies, s'.counters, inv')
    ensures PartsOf(s'.companies, inv') == PartsOf(s.companies, inv) && HomeBucket(inv') == HomeBucket(inv)
  {
    hide MonthlyBucket, DecodeDisplay, Compose;
  }

  /** Every numbered invoice was numbered before. */
  ghost predicate NumbersFrom(s: Store, s': Store) {
    forall id :: id in s'.invoices && s'.invoices[id].sequence.Some? ==> id in s.invoices && s.invoices[id].sequence.Some?
  }

  lemma {:induction false} NothingNumberedKeepsRefs(s: Store, s': Store)
    requires RefsOk(s) && Later(s, s') && SamePrefixes(s, s') && NumbersFrom(s, s')
    ensures RefsOk(s')
  {
    hide ReferenceOk, PartsOf, HomeBucket, SameDocument;
    forall id | id in s'.invoices && s'.invoices[id].sequence.Some?
      ensures ReferenceOk(s'.companies, s'.counters, s'.invoices[id])
      ensures PartsOf(s'.companies, s'.invoices[id]) == PartsOf(s.companies, s.invoices[id])
      ensures HomeBucket(s'.invoices[id]) == HomeBucket(s.invoices[id])
    {
      assert InvoiceKept(s, s', id);
      ReferenceKept(s, s', s.invoices[id], s'.invoices[id]);
    }
  }

  lemma {:induction false} DraftIsUnnumbered(s: Store, id: Id, r: DraftRequest, today: Date)
    requires CreateDraft(s, id, r, today).Ok?
    ensures var s' := CreateDraft(s, id, r, today).value;
            id in s'.invoices && s'.invoices == s.invoices[id := s'.invoices[id]] && s'.invoices[id].sequence.None?
  {
  }

  lemma {:induction false} DuplicateIsUnnumbered(s: Store, sourceId: Id, id: Id, onDate: Option<Date>, today: Date)
    requires Duplicate(s, sourceId, id, onDate, today).Ok?
    ensures NumbersFrom(s, Duplicate(s, sourceId, id, onDate, today).value)
  {
    hide CreateDraft;
    DraftIsUnnumbered(s, id, DuplicateRequest(s.invoices[sourceId], onDate, today), today);
  }

  lemma {:induction false} VoidNumbers(s: Store, id: Id, reason: string, now: Date)
    requires VoidInvoice(s, id, reason, now).Ok?
    ensures NumbersFrom(s, VoidInvoice(s, id, reason, now).value)
  {
    hide Blank;
  }

  lemma {:induction false} NoteNumbers(s: Store, id: Id, invoiceId: Id, reason: string, date: Date)
    requires IssueCreditNote(s, id, invoiceId, reason, date).Ok?
    ensures NumbersFrom(s, IssueCreditNote(s, id, invoiceId, reason, date).value)
  {
    hide Blank, CreditNoteReference, NoteKeyTaken, NoteFor;
  }

  lemma {:induction false} PayNumbers(s: Store, id: Id, amount: real, paidOn: Date, reference: Option<string>)
    requires RecordPayment(s, id, amount, paidOn, reference).Ok?
    ensures NumbersFrom(s, RecordPayment(s, id, amount, paidOn, reference).value)
  {
    hide PaidOn;
  }

  lemma {:induction false} DeletionNumbers(s: Store, id: Id)
    requires DeleteDraft(s, id).Ok?
    ensures NumbersFrom(s, DeleteDraft(s, id).value)
  {
  }

  /** Numbers come from `issue` only. */
  lemma {:induction false} OnlyIssueNumbers(s: Store, c: Command)
    requires !c.DoIssue? && Execute(s, c).Ok?
    ensures NumbersFrom(s, Execute(s, c).value)
  {
    StepFrame(s, c);
    hide AddCompany, UpdateCompany, AddClient, UpdateClient, CreateDraft, Duplicate, DeleteDraft, IssueInvoice, VoidInvoice,
         IssueCreditNote, RecordPayment, CreateQuote, TransitionQuote, DeleteQuote;
    match c
    case DoCreateDraft(id, draft, today) => DraftIsUnnumbered(s, id, draft, today);
    case DoDuplicate(sourceId, id, onDate, today) => DuplicateIsUnnumbered(s, sourceId, id, onDate, today);
    case DoDeleteDraft(id) => DeletionNumbers(s, id);
    case DoVoid(id, reason, now) => VoidNumbers(s, id, reason, now);
    case DoCreditNote(id, invoiceId, reason, date) => NoteNumbers(s, id, invoiceId, reason, date);
    case DoPay(invoiceId, amount, paidOn, reference) => PayNumbers(s, invoiceId, amount, paidOn, reference);
    case _ =>
  }

  lemma {:induction false} PrefixesStay(s: Store, c: Command)
    requires KeepsPrefix(s, c) && IdsOk(s)
    ensures SamePrefixes(s, Step(s, c))
  {
    hide CreateDraft, Duplicate, DeleteDraft, IssueInvoice, VoidInvoice, IssueCreditNote, RecordPayment, CreateQuote,
         TransitionQuote, DeleteQuote;
    StepFrame(s, c);
  }

  // ------------------------------------------------------------------ issue

  lemma {:induction false} ComposedReference(prefix: string, name: string, month: int, bucketSeq: int, year: int)
    requires DisplayReference(prefix, name, month, bucketSeq, year).Some?
    ensures var r, p := DisplayReference(prefix, name, month, bucketSeq, year).value,
                        DisplayParts(ClientInitials(name), month, bucketSeq, year);
            r == Compose(prefix, p) && DecodeDisplay(prefix, r) == Some(p)
  {
    DisplayRoundTrip(prefix, name, month, bucketSeq, year);
  }

  /** The parts the next issue of a draft would write on the document. */
  function NextParts(s: Store, inv: Invoice, issueDate: Date): DisplayParts
    requires inv.clientId in s.clients
  {
    DisplayParts(ClientInitials(s.clients[inv.clientId].name), issueDate.month,
                 CounterOf(s.counters, BucketScope(inv, issueDate)) + 1, issueDate.year)
  }

  /** What `NumberInvoice` stores on the row. */
  lemma {:induction false} NumberedParts(s: Store, id: Id, issueDate: Date, due: Date)
    requires id in s.invoices && s.invoices[id].companyId in s.companies && s.invoices[id].clientId in s.clients
    requires NumberInvoice(s, id, issueDate, due).Ok?
    ensures var s', inv := NumberInvoice(s, id, issueDate, due).value, s.invoices[id];
            && id in s'.invoices && s'.companies == s.companies
            && s'.invoices == s.invoices[id := s'.invoices[id]]
            && s'.counters == InvoiceNumbers(s.counters, inv, issueDate)
            && s'.invoices[id].companyId == inv.companyId && s'.invoices[id].issueDate == issueDate
            && HomeBucket(s'.invoices[id]) == BucketScope(inv, issueDate)
            && PartsOf(s.companies, s'.invoices[id]) == Some(NextParts(s, inv, issueDate))
            && ReferenceOk(s.companies, s'.counters, s'.invoices[id])
  {
    var inv := s.invoices[id];
    var prefix := s.companies[inv.companyId].prefix;
    BucketCounter(s.counters, inv, issueDate);
    ComposedReference(prefix, s.clients[inv.clientId].name, issueDate.month,
                      CounterOf(InvoiceNumbers(s.counters, inv, issueDate), BucketScope(inv, issueDate)), issueDate.year);
    hide MonthlyBucket, DecodeDisplay, Compose, DisplayReference, InvoiceKeyTaken, ClientInitials;
  }

  lemma {:induction false} BucketCounter(counters: map<Scope, nat>, inv: Invoice, issueDate: Date)
    ensures CounterOf(InvoiceNumbers(counters, inv, issueDate), BucketScope(inv, issueDate))
         == CounterOf(counters, BucketScope(inv, issueDate)) + 1
  {
    BucketIsNoSeries(inv.clientId, issueDate.year, issueDate.month);
  }

  lemma {:induction false} IssueKeepsRefs(s: Store, id: Id, onDate: Option<Date>, dueDate: Option<Date>, party: seq<Finding>)
    requires Inv(s) && RefsOk(s) && IssueInvoice(s, id, onDate, dueDate, party).Ok?
    ensures RefsOk(IssueInvoice(s, id, onDate, dueDate, party).value)
  {
    hide Inv, CheckedInvoice, NumberInvoice, IssueFindings, ReferenceOk, PartsOf, NextParts, InvoiceNumbers, HomeBucket, BucketScope,
         SameDocument;
    var inv := s.invoices[id];
    var issueDate := Or(onDate, inv.issueDate);
    var due := EffectiveDueDate(inv, issueDate, dueDate).value;
    IssueIsLater(s, id, onDate, dueDate, party);
    NumberedParts(s, id, issueDate, due);
    var s' := IssueInvoice(s, id, onDate, dueDate, party).value;
    hide IssueInvoice;
    forall x | x in s.invoices && x != id && s.invoices[x].sequence.Some?
      ensures ReferenceOk(s'.companies, s'.counters, s.invoices[x])
      ensures PartsOf(s'.companies, s.invoices[x]) == PartsOf(s.companies, s.invoices[x])
      ensures HomeBucket(s.invoices[x]) == HomeBucket(s'.invoices[id]) ==> PartsOf(s.companies, s.invoices[x]) != PartsOf(s.companies, s'.invoices[id])
    {
      assert InvoiceKept(s, s', x);
      ReferenceKept(s, s', s.invoices[x], s.invoices[x]);
      OlderPartsDiffer(s, s.invoices[x], s'.invoices[id], inv, issueDate);
    }
  }

  lemma {:induction false} OlderPartsDiffer(s: Store, earlier: Invoice, issued: Invoice, inv: Invoice, issueDate: Date)
    requires ReferenceOk(s.companies, s.counters, earlier) && inv.clientId in s.clients
    requires HomeBucket(issued) == BucketScope(inv, issueDate)
    requires PartsOf(s.companies, issued) == Some(NextParts(s, inv, issueDate))
    ensures HomeBucket(earlier) == HomeBucket(issued) ==> PartsOf(s.companies, earlier) != PartsOf(s.companies, issued)
  {
    hide MonthlyBucket, DecodeDisplay, Compose, ClientInitials;
  }

  lemma {:induction false} StepIsExecute(s: Store, c: Command)
    ensures Step(s, c) == if Execute(s, c).Ok? then Execute(s, c).value else s
  {
    hide Execute;
  }

  lemma {:induction false} IssueIsExecute(s: Store, c: Command)
    requires c.DoIssue?
    ensures Execute(s, c) == IssueInvoice(s, c.id, c.onDate, c.dueDate, c.party)
  {
    hide IssueInvoice;
  }

  lemma {:induction false} StepKeepsRefs(s: Store, c: Command)
    requires Inv(s) && RefsOk(s) && KeepsPrefix(s, c)
    ensures RefsOk(Step(s, c))
  {
    hide *;
    StepIsExecute(s, c);
    if Execute(s, c).Ok? {
      if c.DoIssue? {
        IssueIsExecute(s, c);
        IssueKeepsRefs(s, c.id, c.onDate, c.dueDate, c.party);
      } else {
        IdsOfInv(s);
        PrefixesStay(s, c);
        StepIsLater(s, c);
        OnlyIssueNumbers(s, c);
        NothingNumberedKeepsRefs(s, Step(s, c));
      }
    }
  }

  lemma {:induction false} RunKeepsRefs(s: Store, cs: seq<Command>)
    requires Inv(s) && RefsOk(s) && KeepPrefixes(s, cs)
    ensures RefsOk(Run(s, cs))
  {
    hide Inv, RefsOk, Step, KeepsPrefix;
    if cs != [] {
      RunKeepsRefs(s, cs[..|cs| - 1]);
      RunKeepsInv(s, cs[..|cs| - 1]);
      StepKeepsRefs(Run(s, cs[..|cs| - 1]), cs[|cs| - 1]);
    }
  }

  /** Over every run in which the company prefix is left alone, no two issued invoices of one client
      share a display reference, however often the client is renamed in between. */
  lemma {:induction false} ClientReferencesAreUnique(cs: seq<Command>, a: Id, b: Id)
    requires KeepPrefixes(EMPTY, cs)
    requires var s := Run(EMPTY, cs);
             && a in s.invoices && b in s.invoices && a != b
             && s.invoices[a].reference.Some? && s.invoices[b].reference.Some?
             && s.invoices[a].clientId == s.invoices[b].clientId
    ensures var s := Run(EMPTY, cs); s.invoices[a].reference != s.invoices[b].reference
  {
    hide Run, Inv, KeepPrefixes;
    var empty := EMPTY;
    EmptyStoreOk(empty);
    RunKeepsInv(empty, cs);
    RunKeepsRefs(empty, cs);
    hide RefsOk, InvoicesOk, PaymentsOk, NotesOk, SeriesOk, PaidMatches;
    var s := Run(empty, cs);
    InvoiceFacts(s, a);
    InvoiceFacts(s, b);
    OwnReferencesDiffer(s, a, b);
  }

  lemma {:induction false} OwnReferencesDiffer(s: Store, a: Id, b: Id)
    requires RefsOk(s) && a in s.invoices && b in s.invoices && a != b
    requires s.invoices[a].sequence.Some? && s.invoices[b].sequence.Some?
    requires s.invoices[a].clientId == s.invoices[b].clientId && s.invoices[a].companyId == s.invoices[b].companyId
    ensures s.invoices[a].reference != s.invoices[b].reference
  {
    hide MonthlyBucket, DecodeDisplay, Compose;
    var x, y := s.invoices[a], s.invoices[b];
    assert ReferenceOk(s.companies, s.counters, x) && ReferenceOk(s.companies, s.counters, y);
    assert x.reference == y.reference ==> PartsOf(s.companies, x) == PartsOf(s.companies, y);
    assert x.reference == y.reference ==> HomeBucket(x) == HomeBucket(y);
  }

  // ------------------------------------------------------------------ when the constraint refuses

  /** An issued invoice of another client that already carries the reference this issue would write:
      same company, same initials, same month, same per-client number. */
  ghost predicate NamesakeHolds(s: Store, id: Id, issueDate: Date)
    requires id in s.invoices && s.invoices[id].clientId in s.clients
  {
    exists other :: other in s.invoices && other != id && s.invoices[other].sequence.Some?
      && s.invoices[other].companyId == s.invoices[id].companyId
      && s.invoices[other].clientId != s.invoices[id].clientId
      && PartsOf(s.companies, s.invoices[other]) == Some(NextParts(s, s.invoices[id], issueDate))
  }

  lemma {:induction false} SequenceNeverTaken(s: Store, companyId: Id, other: Id)
    requires SeriesOk(s) && other in s.invoices && s.invoices[other].companyId == companyId
    ensures s.invoices[other].sequence != Some(Counter(s, companyId, INVOICE_SERIES) + 1)
  {
    var tickets := InvoiceTickets(s.invoices);
    if s.invoices[other].sequence.Some? {
      assert other in tickets;
    }
  }

  lemma {:induction false} SameReferenceIff(s: Store, other: Invoice, prefix: string, parts: DisplayParts)
    requires ReferenceOk(s.companies, s.counters, other) && s.companies[other.companyId].prefix == prefix
    requires DecodeDisplay(prefix, Compose(prefix, parts)) == Some(parts)
    ensures other.reference == Some(Compose(prefix, parts)) <==> PartsOf(s.companies, other) == Some(parts)
  {
    hide DecodeDisplay, Compose, HomeBucket;
  }

  /** A draft that has passed the gate is refused by the unique constraints exactly when a namesake
      holds its reference; the number series itself never collides. The refusal leaves the bucket
      where it was, so the same issue is refused again until the month changes or the client is
      renamed. */
  lemma {:induction false} ConstraintRefusesIff(s: Store, id: Id, issueDate: Date, due: Date)
    requires Inv(s) && RefsOk(s) && id in s.invoices && s.invoices[id].status.Draft?
    requires s.invoices[id].companyId in s.companies && s.invoices[id].clientId in s.clients
    requires issueDate.year >= 1000
    ensures NumberInvoice(s, id, issueDate, due) == Err(IntegrityError) <==> NamesakeHolds(s, id, issueDate)
  {
    hide Inv, MonthlyBucket, DisplayReference, DecodeDisplay, Compose, InvoicesOk, PaymentsOk, NotesOk, SeriesOk, RefsOk, NamesakeHolds,
         ClientInitials, InvoiceKeyTaken;
    StoreFacts(s);
    var inv := s.invoices[id];
    var prefix, next := s.companies[inv.companyId].prefix, NextParts(s, inv, issueDate);
    BucketCounter(s.counters, inv, issueDate);
    ReferenceExists(prefix, s.clients[inv.clientId].name, issueDate, next.bucketSeq);
    ComposedReference(prefix, s.clients[inv.clientId].name, issueDate.month, next.bucketSeq, issueDate.year);
    var issued := IssuedInvoice(inv, Compose(prefix, next), Counter(s, inv.companyId, INVOICE_SERIES) + 1, issueDate, due);
    KeyTakenIff(s, id, issued, issueDate);
    NumberRefused(s, id, issueDate, due, Compose(prefix, next));
  }

  lemma {:induction false} NumberRefused(s: Store, id: Id, issueDate: Date, due: Date, reference: string)
    requires id in s.invoices && s.invoices[id].companyId in s.companies && s.invoices[id].clientId in s.clients
    requires var inv := s.invoices[id];
             DisplayReference(s.companies[inv.companyId].prefix, s.clients[inv.clientId].name, issueDate.month,
                              CounterOf(InvoiceNumbers(s.counters, inv, issueDate), BucketScope(inv, issueDate)), issueDate.year) == Some(reference)
    ensures var inv := s.invoices[id];
            NumberInvoice(s, id, issueDate, due) == Err(IntegrityError)
            <==> InvoiceKeyTaken(s.invoices, id,
                   IssuedInvoice(inv, reference, Counter(s, inv.companyId, INVOICE_SERIES) + 1, issueDate, due))
  {
    hide DisplayReference, InvoiceNumbers, BucketScope, InvoiceKeyTaken, IssuedInvoice;
  }

  lemma {:induction false} ReferenceExists(prefix: string, name: string, d: Date, bucketSeq: nat)
    requires d.year >= 1000 && bucketSeq >= 1
    ensures DisplayReference(prefix, name, d.month, bucketSeq, d.year).Some?
  {
  }

  lemma {:induction false} KeyTakenIff(s: Store, id: Id, issued: Invoice, issueDate: Date)
    requires InvoicesOk(s.companies, s.clients, s.invoices) && SeriesOk(s) && RefsOk(s)
    requires id in s.invoices && s.invoices[id].companyId in s.companies && s.invoices[id].clientId in s.clients
    requires issued.companyId == s.invoices[id].companyId
    requires issued.sequence == Some(Counter(s, issued.companyId, INVOICE_SERIES) + 1)
    requires var prefix, next := s.companies[issued.companyId].prefix, NextParts(s, s.invoices[id], issueDate);
             issued.reference == Some(Compose(prefix, next)) && DecodeDisplay(prefix, Compose(prefix, next)) == Some(next)
    ensures InvoiceKeyTaken(s.invoices, id, issued) <==> NamesakeHolds(s, id, issueDate)
  {
    hide InvoicesOk, SeriesOk, RefsOk, Compose, DecodeDisplay, MonthlyBucket, NextParts, HomeBucket, ReferenceOk, PartsOf, BucketScope;
    forall other | other in s.invoices && other != id && s.invoices[other].companyId == issued.companyId
      ensures s.invoices[other].sequence != issued.sequence
      ensures s.invoices[other].reference == issued.reference
          <==> s.invoices[other].sequence.Some? && s.invoices[other].clientId != s.invoices[id].clientId
               && PartsOf(s.companies, s.invoices[other]) == Some(NextParts(s, s.invoices[id], issueDate))
    {
      SequenceNeverTaken(s, issued.companyId, other);
      OneKeyTakenIff(s, id, issued, issueDate, other);
    }
  }

  lemma {:induction false} OneKeyTakenIff(s: Store, id: Id, issued: Invoice, issueDate: Date, other: Id)
    requires InvoicesOk(s.companies, s.clients, s.invoices) && RefsOk(s)
    requires id in s.invoices && s.invoices[id].companyId in s.companies && s.invoices[id].clientId in s.clients
    requires issued.companyId == s.invoices[id].companyId
    requires var prefix, next := s.companies[issued.companyId].prefix, NextParts(s, s.invoices[id], issueDate);
             issued.reference == Some(Compose(prefix, next)) && DecodeDisplay(prefix, Compose(prefix, next)) == Some(next)
    requires other in s.invoices && other != id && s.invoices[other].companyId == issued.companyId
    ensures s.invoices[other].reference == issued.reference
        <==> s.invoices[other].sequence.Some? && s.invoices[other].clientId != s.invoices[id].clientId
             && PartsOf(s.companies, s.invoices[other]) == Some(NextParts(s, s.invoices[id], issueDate))
  {
    hide Compose, DecodeDisplay, NextParts, HomeBucket, ReferenceOk, PartsOf, TotalsFrozen, SoundLines, LawfullyIssued, PartiesExist;
    var prefix, next := s.companies[issued.companyId].prefix, NextParts(s, s.invoices[id], issueDate);
    assert InvoiceOk(s.companies, s.clients, s.invoices[other]);
    if s.invoices[other].sequence.Some? {
      assert ReferenceOk(s.companies, s.counters, s.invoices[other]);
      SameReferenceIff(s, s.invoices[other], prefix, next);
      if s.invoices[other].clientId == s.invoices[id].clientId {
        OwnPartsDiffer(s, s.invoices[other], s.invoices[id], issueDate);
      }
    }
  }

  lemma {:induction false} OwnPartsDiffer(s: Store, other: Invoice, inv: Invoice, issueDate: Date)
    requires ReferenceOk(s.companies, s.counters, other) && inv.clientId in s.clients
    requires other.companyId == inv.companyId && other.clientId == inv.clientId
    ensures PartsOf(s.companies, other) != Some(NextParts(s, inv, issueDate))
  {
    hide MonthlyBucket, DecodeDisplay, Compose, ClientInitials;
    assert PartsOf(s.companies, other) == Some(NextParts(s, inv, issueDate)) ==> HomeBucket(other) == BucketScope(inv, issueDate);
  }
}
