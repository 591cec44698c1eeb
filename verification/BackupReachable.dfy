// Backups of reachable ledgers: no reference the program hands out has the shape of an identifier, so
// every ledger an organization can reach comes back from its own backup.
module BackupReachable {
  import opened Common
  import opened Calendar
  import opened Compliance
  import opened Lines
  import opened Decimals
  import opened Text
  import opened Numbering
  import opened Store
  import opened Transactions
  import opened CurrencyMath
  import opened LedgerInvariant
  import opened LedgerKeys
  import opened BackupIds
  import opened BackupCodec
  import opened LedgerCopy
  import opened Backup
  import opened BackupServices

  // ------------------------------------------------------------------ references are no identifiers

  predicate NoIdentifier(reference: string) {
    FiledUnder(reference).None?
  }

  lemma {:induction false} InitialsAlnum(folded: string)
    ensures AllAlnum(ClientInitials(folded))
  {
    hide ClientInitials;
  }

  lemma {:induction false} DigitsAlnum(s: string)
    requires AllDigits(s)
    ensures AllAlnum(s)
  {
  }

  /** A prefix of at most eight characters leaves letters and digits where an identifier has its second dash
      and a bucket its second colon. */
  lemma {:induction false} ShortPrefixNoIdentifier(prefix: string, tail: string)
    requires |prefix| <= PREFIX_LENGTH && AllAlnum(tail)
    ensures NoIdentifier(prefix + tail)
  {
    var r := prefix + tail;
    assert forall i :: PREFIX_LENGTH <= i < |r| ==> IsAlnum(r[i]);
    if |r| >= 36 {
      assert r[13] != '-' && r[..36][13] == r[13];
    }
    assert |r| > 43 ==> r[43] != ':';
  }

  lemma {:induction false} TailAlnum(folded: string, month: nat, bucketSeq: nat, year: nat)
    ensures AllAlnum(ClientInitials(folded) + Padded(month, 2) + Padded(bucketSeq, 2) + Decimal(year))
  {
    InitialsAlnum(folded);
    DigitsAlnum(Padded(month, 2));
    DigitsAlnum(Padded(bucketSeq, 2));
    DigitsAlnum(Decimal(year));
    hide ClientInitials, IsAlnum, Padded, Decimal;
  }

  /** No invoice reference has the shape of an identifier: that is what the length of the prefix is limited for. */
  lemma {:induction false} DisplayIsNoIdentifier(prefix: string, folded: string, month: int, bucketSeq: int, year: int)
    requires |prefix| <= PREFIX_LENGTH && DisplayReference(prefix, folded, month, bucketSeq, year).Some?
    ensures NoIdentifier(DisplayReference(prefix, folded, month, bucketSeq, year).value)
  {
    hide NoIdentifier, ClientInitials, AllAlnum, Padded, Decimal;
    var tail := ClientInitials(folded) + Padded(month, 2) + Padded(bucketSeq, 2) + Decimal(year);
    TailAlnum(folded, month, bucketSeq, year);
    ShortPrefixNoIdentifier(prefix, tail);
    assert prefix + ClientInitials(folded) + Padded(month, 2) + Padded(bucketSeq, 2) + Decimal(year) == prefix + tail;
  }

  /** Credit notes and quotes start with letters no identifier has. */
  lemma {:induction false} SeriesIsNoIdentifier(reference: string)
    requires |reference| >= 2 && (reference[0] == 'Q' || reference[1] == 'N')
    ensures NoIdentifier(reference)
  {
    assert "bucket:"[0] == 'b' && "bucket:"[1] == 'u';
    if |reference| >= 7 {
      assert reference[0] == reference[..7][0] && reference[1] == reference[..7][1];
    }
  }

  lemma {:induction false} SeriesReferencesAreNoIdentifiers(prefix: string, year: int, n: int)
    ensures CreditNoteReference(prefix, year, n).Some? ==> NoIdentifier(CreditNoteReference(prefix, year, n).value)
    ensures QuoteReference(prefix, year, n).Some? ==> NoIdentifier(QuoteReference(prefix, year, n).value)
  {
    hide NoIdentifier, Decimal, Padded;
    if n >= 1 && 1000 <= year <= 9999 {
      SeriesIsNoIdentifier("CN-" + prefix + Decimal(year) + "/" + Padded(n, 4));
      SeriesIsNoIdentifier("Q-" + prefix + Decimal(year) + "/" + Padded(n, 4));
    }
  }

  // ------------------------------------------------------------------ what every step keeps

  predicate CompanyShaped(id: Id, c: Company) {
    Canonical(id) && |c.prefix| <= PREFIX_LENGTH
  }

  predicate ClientShaped(id: Id, c: Client) {
    CanonicalRow(ClientRow(id, c))
  }

  predicate InvoiceShaped(id: Id, i: Invoice) {
    CanonicalRow(InvoiceRow(id, i)) && (i.reference.Some? ==> NoIdentifier(i.reference.value))
  }

  predicate QuoteShaped(id: Id, q: Quote) {
    CanonicalRow(QuoteRow(id, q)) && NoIdentifier(q.reference)
  }

  predicate NoteShaped(id: Id, n: CreditNote) {
    CanonicalRow(NoteRow(id, n)) && NoIdentifier(n.reference)
  }

  ghost predicate CompaniesShaped(m: map<Id, Company>) {
    forall id :: id in m ==> CompanyShaped(id, m[id])
  }

  ghost predicate ClientsShaped(m: map<Id, Client>) {
    forall id :: id in m ==> ClientShaped(id, m[id])
  }

  ghost predicate InvoicesShaped(m: map<Id, Invoice>) {
    forall id :: id in m ==> InvoiceShaped(id, m[id])
  }

  ghost predicate QuotesShaped(m: map<Id, Quote>) {
    forall id :: id in m ==> QuoteShaped(id, m[id])
  }

  ghost predicate NotesShaped(m: map<Id, CreditNote>) {
    forall id :: id in m ==> NoteShaped(id, m[id])
  }

  ghost predicate AuditShaped(audit: seq<AuditEntry>) {
    forall i :: 0 <= i < |audit| ==> CanonicalOpt(audit[i].targetId)
  }

  /** Identifiers are canonical, prefixes short, and no reference has the shape of an identifier. */
  ghost predicate ShapeOk(s: Store) {
    && CompaniesShaped(s.companies) && ClientsShaped(s.clients) && InvoicesShaped(s.invoices)
    && QuotesShaped(s.quotes) && NotesShaped(s.notes) && AuditShaped(s.audit)
  }

  /** uuid4 and the catalogue only hand out canonical identifiers. */
  predicate CanonicalCommand(c: Command) {
    match c
    case DoAddCompany(id, _) => Canonical(id)
    case DoAddClient(id, _) => Canonical(id)
    case DoCreateDraft(id, draft, _) => Canonical(id) && CanonicalLines(draft.lines)
    case DoDuplicate(_, id, _, _) => Canonical(id)
    case DoCreditNote(id, _, _, _) => Canonical(id)
    case DoCreateQuote(id, quote, _) => Canonical(id) && CanonicalLines(quote.lines)
    case DoTransition(_, move) => move.MarkConverted? ==> Canonical(move.invoiceId)
    case _ => true
  }

  predicate CanonicalCommands(cs: seq<Command>) {
    forall i :: 0 <= i < |cs| ==> CanonicalCommand(cs[i])
  }

  lemma {:induction false} RenumberedCanonical(lines: seq<InvoiceLine>)
    requires CanonicalLines(lines)
    ensures CanonicalLines(Renumbered(lines))
  {
    hide CanonicalOpt;
    forall l | l in Renumbered(lines) ensures CanonicalOpt(l.productId) {
      var i :| 0 <= i < |lines| && Renumbered(lines)[i] == l;
      assert lines[i] in lines;
    }
  }

  lemma {:induction false} MirroredCanonical(lines: seq<InvoiceLine>)
    requires CanonicalLines(lines)
    ensures forall l :: l in MirroredLines(lines) ==> CanonicalOpt(l.productId)
  {
    hide CanonicalOpt;
    forall l | l in MirroredLines(lines) ensures CanonicalOpt(l.productId) {
      var i :| 0 <= i < |lines| && MirroredLines(lines)[i] == l;
      assert lines[i] in lines;
    }
  }

  // Rows, one table at a time.

  lemma {:induction false} CompaniesGrow(m: map<Id, Company>, id: Id, company: Company)
    requires CompaniesShaped(m) && CompanyShaped(id, company)
    ensures CompaniesShaped(m[id := company])
  {
    hide CompanyShaped;
  }

  lemma {:induction false} ClientsGrow(m: map<Id, Client>, id: Id, client: Client)
    requires ClientsShaped(m) && ClientShaped(id, client)
    ensures ClientsShaped(m[id := client])
  {
    hide ClientShaped;
  }

  lemma {:induction false} InvoicesGrow(m: map<Id, Invoice>, id: Id, i: Invoice)
    requires InvoicesShaped(m) && InvoiceShaped(id, i)
    ensures InvoicesShaped(m[id := i])
  {
    hide InvoiceShaped;
  }

  lemma {:induction false} QuotesGrow(m: map<Id, Quote>, id: Id, q: Quote)
    requires QuotesShaped(m) && QuoteShaped(id, q)
    ensures QuotesShaped(m[id := q])
  {
    hide QuoteShaped;
  }

  lemma {:induction false} NotesGrow(m: map<Id, CreditNote>, id: Id, n: CreditNote)
    requires NotesShaped(m) && NoteShaped(id, n)
    ensures NotesShaped(m[id := n])
  {
    hide NoteShaped;
  }

  lemma {:induction false} AuditGrows(audit: seq<AuditEntry>, e: AuditEntry)
    requires AuditShaped(audit) && CanonicalOpt(e.targetId)
    ensures AuditShaped(audit + [e])
  {
    hide CanonicalOpt;
  }

  lemma {:induction false} RowsShrink(invoices: map<Id, Invoice>, quotes: map<Id, Quote>, id: Id)
    ensures InvoicesShaped(invoices) ==> InvoicesShaped(invoices - {id})
    ensures QuotesShaped(quotes) ==> QuotesShaped(quotes - {id})
  {
    hide InvoiceShaped, QuoteShaped;
  }

  /** What the shape of a ledger says about the rows it has. */
  lemma {:induction false} ShapedCompany(s: Store, id: Id)
    requires ShapeOk(s) && id in s.companies
    ensures Canonical(id) && |s.companies[id].prefix| <= PREFIX_LENGTH
  {
    hide Canonical, ClientsShaped, InvoicesShaped, QuotesShaped, NotesShaped, AuditShaped;
    assert CompanyShaped(id, s.companies[id]);
  }

  lemma {:induction false} ShapedClient(s: Store, id: Id)
    requires ShapeOk(s) && id in s.clients
    ensures Canonical(id) && Canonical(s.clients[id].companyId)
  {
    hide Canonical, CompaniesShaped, InvoicesShaped, QuotesShaped, NotesShaped, AuditShaped;
    assert ClientShaped(id, s.clients[id]);
  }

  lemma {:induction false} ShapedInvoice(s: Store, id: Id)
    requires ShapeOk(s) && id in s.invoices
    ensures InvoiceShaped(id, s.invoices[id]) && Canonical(id) && CanonicalLines(s.invoices[id].lines)
  {
    hide Canonical, CanonicalLines, NoIdentifier, CompaniesShaped, ClientsShaped, QuotesShaped, NotesShaped, AuditShaped;
    assert InvoiceShaped(id, s.invoices[id]);
  }

  lemma {:induction false} ShapedQuote(s: Store, id: Id)
    requires ShapeOk(s) && id in s.quotes
    ensures QuoteShaped(id, s.quotes[id]) && Canonical(id)
  {
    hide Canonical, CanonicalLines, NoIdentifier, CompaniesShaped, ClientsShaped, InvoicesShaped, NotesShaped, AuditShaped;
    assert QuoteShaped(id, s.quotes[id]);
  }

  // Transactions.

  lemma {:induction false} AddCompanyShaped(s: Store, id: Id, company: Company)
    requires ShapeOk(s) && Canonical(id) && AddCompany(s, id, company).Ok?
    ensures ShapeOk(AddCompany(s, id, company).value)
  {
    hide Canonical, CompaniesShaped, ClientsShaped, InvoicesShaped, QuotesShaped, NotesShaped, AuditShaped;
    CompaniesGrow(s.companies, id, company);
    AuditGrows(s.audit, AuditEntry(Create, "company", Some(id)));
  }

  lemma {:induction false} UpdateCompanyShaped(s: Store, id: Id, company: Company)
    requires ShapeOk(s) && UpdateCompany(s, id, company).Ok?
    ensures ShapeOk(UpdateCompany(s, id, company).value)
  {
    hide Canonical, CompaniesShaped, ClientsShaped, InvoicesShaped, QuotesShaped, NotesShaped, AuditShaped;
    ShapedCompany(s, id);
    CompaniesGrow(s.companies, id, company);
    AuditGrows(s.audit, AuditEntry(Update, "company", Some(id)));
  }

  lemma {:induction false} AddClientShaped(s: Store, id: Id, client: Client)
    requires ShapeOk(s) && Canonical(id) && AddClient(s, id, client).Ok?
    ensures ShapeOk(AddClient(s, id, client).value)
  {
    hide Canonical, CompaniesShaped, ClientsShaped, InvoicesShaped, QuotesShaped, NotesShaped, AuditShaped;
    ShapedCompany(s, client.companyId);
    ClientsGrow(s.clients, id, client);
    AuditGrows(s.audit, AuditEntry(Create, "client", Some(id)));
  }

  lemma {:induction false} UpdateClientShaped(s: Store, id: Id, client: Client)
    requires ShapeOk(s) && UpdateClient(s, id, client).Ok?
    ensures ShapeOk(UpdateClient(s, id, client).value)
  {
    hide Canonical, CompaniesShaped, ClientsShaped, InvoicesShaped, QuotesShaped, NotesShaped, AuditShaped;
    ShapedClient(s, id);
    ClientsGrow(s.clients, id, client.(companyId := s.clients[id].companyId));
    AuditGrows(s.audit, AuditEntry(Update, "client", Some(id)));
  }

  lemma {:induction false} NewDraftShaped(id: Id, company: Company, r: DraftRequest, today: Date)
    requires Canonical(id) && Canonical(r.companyId) && Canonical(r.clientId) && CanonicalLines(r.lines)
    ensures InvoiceShaped(id, NewDraft(company, r, today))
  {
    RenumberedCanonical(r.lines);
    hide Canonical, CanonicalLines, NoIdentifier, TotalsOf, Renumbered;
  }

  lemma {:induction false} DraftShaped(s: Store, id: Id, r: DraftRequest, today: Date)
    requires ShapeOk(s) && Canonical(id) && CanonicalLines(r.lines) && CreateDraft(s, id, r, today).Ok?
    ensures ShapeOk(CreateDraft(s, id, r, today).value)
  {
    hide Canonical, CanonicalLines, InvoiceShaped, NewDraft, ValidRequest, ValidTotals, CompaniesShaped, ClientsShaped, InvoicesShaped,
         QuotesShaped, NotesShaped, AuditShaped;
    ShapedCompany(s, r.companyId);
    ShapedClient(s, r.clientId);
    NewDraftShaped(id, s.companies[r.companyId], r, today);
    InvoicesGrow(s.invoices, id, NewDraft(s.companies[r.companyId], r, today));
    AuditGrows(s.audit, AuditEntry(Create, "invoice", Some(id)));
  }

  lemma {:induction false} DuplicateShaped(s: Store, sourceId: Id, id: Id, onDate: Option<Date>, today: Date)
    requires ShapeOk(s) && Canonical(id) && Duplicate(s, sourceId, id, onDate, today).Ok?
    ensures ShapeOk(Duplicate(s, sourceId, id, onDate, today).value)
  {
    hide ShapeOk, InvoiceShaped, CreateDraft, Canonical, CanonicalLines;
    ShapedInvoice(s, sourceId);
    DraftShaped(s, id, DuplicateRequest(s.invoices[sourceId], onDate, today), today);
  }

  lemma {:induction false} DeleteDraftShaped(s: Store, id: Id)
    requires ShapeOk(s) && DeleteDraft(s, id).Ok?
    ensures ShapeOk(DeleteDraft(s, id).value)
  {
    hide Canonical, CanonicalLines, InvoiceShaped, CompaniesShaped, ClientsShaped, InvoicesShaped, QuotesShaped, NotesShaped, AuditShaped;
    ShapedInvoice(s, id);
    RowsShrink(s.invoices, s.quotes, id);
    AuditGrows(s.audit, AuditEntry(Delete, "invoice", Some(id)));
  }

  lemma {:induction false} DeleteQuoteShaped(s: Store, id: Id)
    requires ShapeOk(s) && DeleteQuote(s, id).Ok?
    ensures ShapeOk(DeleteQuote(s, id).value)
  {
    hide Canonical, QuoteShaped, CompaniesShaped, ClientsShaped, InvoicesShaped, QuotesShaped, NotesShaped, AuditShaped;
    ShapedQuote(s, id);
    RowsShrink(s.invoices, s.quotes, id);
    AuditGrows(s.audit, AuditEntry(Delete, "quote", Some(id)));
  }

  /** An invoice that keeps its identifiers and its lines keeps its shape, if its reference is no identifier. */
  lemma {:induction false} InvoiceStaysShaped(id: Id, i: Invoice, i': Invoice)
    requires InvoiceShaped(id, i)
    requires i'.companyId == i.companyId && i'.clientId == i.clientId && i'.lines == i.lines
    requires i'.voidedBy == i.voidedBy || (i'.voidedBy.Some? && Canonical(i'.voidedBy.value))
    requires i'.reference == i.reference || (i'.reference.Some? && NoIdentifier(i'.reference.value))
    ensures InvoiceShaped(id, i')
  {
    hide Canonical, CanonicalLines, NoIdentifier;
  }

  /** One invoice row changes, and the audit log grows. */
  lemma {:induction false} RowStaysShaped(s: Store, s': Store, id: Id, i': Invoice, e: AuditEntry)
    requires ShapeOk(s) && id in s.invoices && InvoiceShaped(id, i') && e.targetId == Some(id)
    requires s'.companies == s.companies && s'.clients == s.clients && s'.quotes == s.quotes && s'.notes == s.notes
    requires s'.invoices == s.invoices[id := i'] && s'.audit == s.audit + [e]
    ensures ShapeOk(s')
  {
    hide Canonical, CanonicalLines, InvoiceShaped, CompaniesShaped, ClientsShaped, InvoicesShaped, QuotesShaped, NotesShaped, AuditShaped;
    ShapedInvoice(s, id);
    InvoicesGrow(s.invoices, id, i');
    AuditGrows(s.audit, e);
  }

  lemma {:induction false} IssueShaped(s: Store, id: Id, onDate: Option<Date>, dueDate: Option<Date>, party: seq<Finding>)
    requires ShapeOk(s) && IssueInvoice(s, id, onDate, dueDate, party).Ok?
    ensures ShapeOk(IssueInvoice(s, id, onDate, dueDate, party).value)
  {
    hide ShapeOk, IssueFindings, InvoiceShaped, NoIdentifier, DisplayReference, InvoiceKeyTaken, BucketScope, TotalsOf, EffectiveDueDate,
         InvoiceNumbers, Canonical, CanonicalLines;
    var inv, s' := s.invoices[id], IssueInvoice(s, id, onDate, dueDate, party).value;
    var issueDate := Or(onDate, inv.issueDate);
    var n := CounterOf(InvoiceNumbers(s.counters, inv, issueDate), BucketScope(inv, issueDate));
    ShapedInvoice(s, id);
    ShapedCompany(s, inv.companyId);
    DisplayIsNoIdentifier(s.companies[inv.companyId].prefix, s.clients[inv.clientId].name, issueDate.month, n, issueDate.year);
    InvoiceStaysShaped(id, inv, s'.invoices[id]);
    RowStaysShaped(s, s', id, s'.invoices[id], AuditEntry(Issue, "invoice", Some(id)));
  }

  lemma {:induction false} VoidShaped(s: Store, id: Id, reason: string, now: Date)
    requires ShapeOk(s) && VoidInvoice(s, id, reason, now).Ok?
    ensures ShapeOk(VoidInvoice(s, id, reason, now).value)
  {
    hide ShapeOk, InvoiceShaped, Blank, Canonical, CanonicalLines, NoIdentifier;
    var s' := VoidInvoice(s, id, reason, now).value;
    ShapedInvoice(s, id);
    InvoiceStaysShaped(id, s.invoices[id], s'.invoices[id]);
    RowStaysShaped(s, s', id, s'.invoices[id], AuditEntry(Void, "invoice", Some(id)));
  }

  lemma {:induction false} PayShaped(s: Store, id: Id, amount: real, paidOn: Date, reference: Option<string>)
    requires ShapeOk(s) && RecordPayment(s, id, amount, paidOn, reference).Ok?
    ensures ShapeOk(RecordPayment(s, id, amount, paidOn, reference).value)
  {
    hide ShapeOk, InvoiceShaped, PaidOn, Canonical, CanonicalLines, NoIdentifier;
    var s' := RecordPayment(s, id, amount, paidOn, reference).value;
    ShapedInvoice(s, id);
    InvoiceStaysShaped(id, s.invoices[id], s'.invoices[id]);
    RowStaysShaped(s, s', id, s'.invoices[id], AuditEntry(Pay, "invoice", Some(id)));
  }

  lemma {:induction false} NoteRowShaped(id: Id, i: Invoice, invoiceId: Id, reference: string, sequence: nat, date: Date, reason: string)
    requires Canonical(id) && InvoiceShaped(invoiceId, i) && NoIdentifier(reference)
    ensures NoteShaped(id, NoteFor(i, invoiceId, reference, sequence, date, reason))
  {
    MirroredCanonical(i.lines);
    hide Canonical, CanonicalOpt, MirroredLines, NoIdentifier;
  }

  lemma {:induction false} CreditNoteShaped(s: Store, id: Id, invoiceId: Id, reason: string, date: Date)
    requires ShapeOk(s) && Canonical(id) && IssueCreditNote(s, id, invoiceId, reason, date).Ok?
    ensures ShapeOk(IssueCreditNote(s, id, invoiceId, reason, date).value)
  {
    hide CompaniesShaped, ClientsShaped, InvoicesShaped, QuotesShaped, NotesShaped, AuditShaped, InvoiceShaped, NoteShaped, NoteFor,
         CreditNoteReference, NoIdentifier, Blank, NoteKeyTaken, Canonical, CanonicalLines;
    var s', i := IssueCreditNote(s, id, invoiceId, reason, date).value, s.invoices[invoiceId];
    var sequence := Counter(s, i.companyId, CREDIT_NOTE_SERIES) + 1;
    var reference := CreditNoteReference(s.companies[i.companyId].prefix, date.year, sequence).value;
    ShapedInvoice(s, invoiceId);
    SeriesReferencesAreNoIdentifiers(s.companies[i.companyId].prefix, date.year, sequence);
    NoteRowShaped(id, i, invoiceId, reference, sequence, date, reason);
    InvoiceStaysShaped(invoiceId, i, s'.invoices[invoiceId]);
    InvoicesGrow(s.invoices, invoiceId, s'.invoices[invoiceId]);
    NotesGrow(s.notes, id, NoteFor(i, invoiceId, reference, sequence, date, reason));
    AuditGrows(s.audit, AuditEntry(Create, "credit_note", Some(id)));
    AuditGrows(s.audit + [AuditEntry(Create, "credit_note", Some(id))], AuditEntry(Void, "invoice", Some(invoiceId)));
  }

  lemma {:induction false} NewQuoteShaped(id: Id, company: Company, r: QuoteRequest, reference: string, sequence: nat, issueDate: Date)
    requires Canonical(id) && Canonical(r.companyId) && Canonical(r.clientId) && CanonicalLines(r.lines) && NoIdentifier(reference)
    ensures QuoteShaped(id, NewQuote(company, r, reference, sequence, issueDate))
  {
    RenumberedCanonical(r.lines);
    hide Canonical, CanonicalLines, NoIdentifier, TotalsOf, Renumbered;
  }

  lemma {:induction false} CreateQuoteShaped(s: Store, id: Id, r: QuoteRequest, today: Date)
    requires ShapeOk(s) && Canonical(id) && CanonicalLines(r.lines) && CreateQuote(s, id, r, today).Ok?
    ensures ShapeOk(CreateQuote(s, id, r, today).value)
  {
    hide CompaniesShaped, ClientsShaped, InvoicesShaped, QuotesShaped, NotesShaped, AuditShaped, QuoteShaped, NewQuote, QuoteReference,
         NoIdentifier, QuoteKeyTaken, Canonical, CanonicalLines, ValidRequest, ValidTotals;
    var day, sequence := Or(r.issueDate, today), Counter(s, r.companyId, QUOTE_SERIES) + 1;
    var company := s.companies[r.companyId];
    var reference := QuoteReference(company.prefix, day.year, sequence).value;
    ShapedCompany(s, r.companyId);
    ShapedClient(s, r.clientId);
    SeriesReferencesAreNoIdentifiers(company.prefix, day.year, sequence);
    NewQuoteShaped(id, company, r, reference, sequence, day);
    QuotesGrow(s.quotes, id, NewQuote(company, r, reference, sequence, day));
    AuditGrows(s.audit, AuditEntry(Create, "quote", Some(id)));
  }

  lemma {:induction false} MovedShaped(id: Id, q: Quote, move: QuoteMove)
    requires QuoteShaped(id, q) && (move.MarkConverted? ==> Canonical(move.invoiceId))
    ensures QuoteShaped(id, MovedQuote(q, move))
  {
    hide Canonical, CanonicalLines, NoIdentifier;
  }

  lemma {:induction false} TransitionShaped(s: Store, id: Id, move: QuoteMove)
    requires ShapeOk(s) && (move.MarkConverted? ==> Canonical(move.invoiceId)) && TransitionQuote(s, id, move).Ok?
    ensures ShapeOk(TransitionQuote(s, id, move).value)
  {
    hide CompaniesShaped, ClientsShaped, InvoicesShaped, QuotesShaped, NotesShaped, AuditShaped, QuoteShaped, MovedQuote, Canonical,
         AllowedTransition, TargetOf;
    ShapedQuote(s, id);
    MovedShaped(id, s.quotes[id], move);
    QuotesGrow(s.quotes, id, MovedQuote(s.quotes[id], move));
    AuditGrows(s.audit, AuditEntry(Update, "quote", Some(id)));
  }

  lemma {:induction false} StepKeepsShape(s: Store, c: Command)
    requires ShapeOk(s) && CanonicalCommand(c)
    ensures ShapeOk(Step(s, c))
  {
    hide ShapeOk, AddCompany, UpdateCompany, AddClient, UpdateClient, CreateDraft, Duplicate, DeleteDraft, IssueInvoice, VoidInvoice,
         IssueCreditNote, RecordPayment, CreateQuote, TransitionQuote, DeleteQuote, Canonical, CanonicalLines;
    if Execute(s, c).Ok? {
      match c
      case DoAddCompany(id, company) => AddCompanyShaped(s, id, company);
      case DoUpdateCompany(id, company) => UpdateCompanyShaped(s, id, company);
      case DoAddClient(id, client) => AddClientShaped(s, id, client);
      case DoUpdateClient(id, client) => UpdateClientShaped(s, id, client);
      case DoCreateDraft(id, draft, today) => DraftShaped(s, id, draft, today);
      case DoDuplicate(sourceId, id, onDate, today) => DuplicateShaped(s, sourceId, id, onDate, today);
      case DoDeleteDraft(id) => DeleteDraftShaped(s, id);
      case DoIssue(id, onDate, dueDate, party) => IssueShaped(s, id, onDate, dueDate, party);
      case DoVoid(id, reason, now) => VoidShaped(s, id, reason, now);
      case DoCreditNote(id, invoiceId, reason, date) => CreditNoteShaped(s, id, invoiceId, reason, date);
      case DoPay(invoiceId, amount, paidOn, reference) => PayShaped(s, invoiceId, amount, paidOn, reference);
      case DoCreateQuote(id, quote, today) => CreateQuoteShaped(s, id, quote, today);
      case DoTransition(id, move) => TransitionShaped(s, id, move);
      case DoDeleteQuote(id) => DeleteQuoteShaped(s, id);
    }
  }

  /** Whatever is done to a ledger, its identifiers stay canonical and no reference gets the shape of one. */
  lemma {:induction false} RunKeepsShape(s: Store, cs: seq<Command>)
    requires ShapeOk(s) && CanonicalCommands(cs)
    ensures ShapeOk(Run(s, cs))
  {
    hide ShapeOk, Step, CanonicalCommand;
    if cs != [] {
      RunKeepsShape(s, cs[..|cs| - 1]);
      StepKeepsShape(Run(s, cs[..|cs| - 1]), cs[|cs| - 1]);
    }
  }

  // ------------------------------------------------------------------ so nothing meets

  lemma {:induction false} ShapedIsCanonical(s: Store)
    requires ShapeOk(s)
    ensures CanonicalStore(s)
  {
    hide Canonical, CanonicalLines, NoIdentifier;
  }

  /** References that are no identifiers come through any renaming as they are, and so stay apart. */
  lemma {:induction false} NoReferencesMeet(s: Store, ids: map<string, string>)
    requires ShapeOk(s) && KeysOk(s)
    ensures ReferencesApart(s, ids)
  {
    hide CanonicalRow, CompanyShaped, ClientShaped, ScopesOk, Rewritten, FiledUnder;
  }

  /** What a restore gives back: the same ledger under new identifiers, sound, its series standing where
      they stood. */
  ghost predicate ComesBack(s: Store, r: Result<Store>, ids: map<string, string>) {
    && r.Ok? && Copied(s, r.value, ids) && Inv(r.value) && KeysOk(r.value)
    && forall c :: c in s.companies ==> SameSeries(s, r.value, c, Renamed(c, ids))
  }

  predicate SameSeries(s: Store, r: Store, c: Id, c': Id) {
    && Counter(r, c', INVOICE_SERIES) == Counter(s, c, INVOICE_SERIES)
    && Counter(r, c', CREDIT_NOTE_SERIES) == Counter(s, c, CREDIT_NOTE_SERIES)
    && Counter(r, c', QUOTE_SERIES) == Counter(s, c, QUOTE_SERIES)
  }

  /** The end of it: take any run of an empty organization. In whatever order the backup lists the rows of the
      ledger reached, whatever texts are in it and whatever identifiers uuid4 comes up with, restoring the
      backup into an organization without companies succeeds and gives the ledger back. */
  lemma {:induction false} ReachableRestore(cs: seq<Command>, s: Store, l: Listing, organization: Json, t: Store, ids: map<string, string>,
                                            uuids: seq<string>)
    requires s == Run(EMPTY, cs) && CanonicalCommands(cs)
    requires ListsStore(l, s)
    requires Renames(ids, Exported(s, l, organization), uuids) && forall id :: id in uuids ==> Canonical(id)
    requires Inv(t) && ScopesOk(t) && t.companies == map[]
    ensures ComesBack(s, RestoreInto(t, RenamedPayload(Exported(s, l, organization), ids)), ids)
  {
    hide *;
    ReachableKeys(cs);
    ReachableShape(cs);
    ShapedIsCanonical(s);
    NoReferencesMeet(s, ids);
    DisasterRecovery(s, l, organization, t, ids, uuids);
    WalkCovers(s, l, organization, ids, uuids);
    ScopesOfKeys(s);
    RestorableFrom(t, s, l, ids);
    var r := RestoreInto(t, RenamedPayload(Exported(s, l, organization), ids));
    RestoredIsSound(t, s, l, ids, organization, r.value);
    ItComesBack(s, r, ids);
  }

  lemma {:induction false} ItComesBack(s: Store, r: Result<Store>, ids: map<string, string>)
    requires r.Ok? && Copied(s, r.value, ids) && Inv(r.value) && KeysOk(r.value)
    requires forall c :: c in s.companies ==> Counter(r.value, Renamed(c, ids), INVOICE_SERIES) == Counter(s, c, INVOICE_SERIES)
    requires forall c :: c in s.companies ==> Counter(r.value, Renamed(c, ids), CREDIT_NOTE_SERIES) == Counter(s, c, CREDIT_NOTE_SERIES)
    requires forall c :: c in s.companies ==> Counter(r.value, Renamed(c, ids), QUOTE_SERIES) == Counter(s, c, QUOTE_SERIES)
    ensures ComesBack(s, r, ids)
  {
    hide Copied, Inv, KeysOk, Renamed, Counter;
  }

  lemma {:induction false} ReachableShape(cs: seq<Command>)
    requires CanonicalCommands(cs)
    ensures ShapeOk(Run(EMPTY, cs))
  {
    hide Run, CanonicalCommands;
    var empty := EMPTY;
    assert ShapeOk(empty);
    hide ShapeOk;
    RunKeepsShape(empty, cs);
  }

  lemma {:induction false} ScopesOfKeys(s: Store)
    requires KeysOk(s)
    ensures ScopesOk(s)
  {
    hide ScopesOk, InvoiceReferencesUnique, NoteReferencesUnique, QuoteReferencesUnique;
  }

  lemma {:induction false} RestorableFrom(t: Store, s: Store, l: Listing, ids: map<string, string>)
    requires Inv(s) && ScopesOk(s) && CanonicalStore(s) && ListsStore(l, s) && Covers(ids, s)
    requires Inv(t) && ScopesOk(t) && t.companies == map[]
    ensures Restorable(t, s, l, ids)
  {
    hide Inv, ScopesOk, CanonicalStore, ListsStore, Covers;
  }
}
