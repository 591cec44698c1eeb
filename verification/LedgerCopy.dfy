// A ledger under new identifiers: what it means to be the same ledger, and what carries over.
module LedgerCopy {
  import opened Common
  import opened Money
  import opened Lines
  import opened CurrencyMath
  import opened Numbering
  import Compliance
  import opened Decimals
  import opened Store
  import opened LedgerInvariant
  import opened LedgerKeys
  import opened BackupIds
  import opened BackupCodec

  function RenamedSet(s: set<Id>, ids: map<string, string>): set<Id> {
    set id | id in s :: Renamed(id, ids)
  }

  /** A counter's scope: its company, and the client a bucket names. */
  function RenamedScope(scope: Scope, ids: map<string, string>): Scope {
    Scope(Renamed(scope.companyId, ids), RenameText(scope.name, ids))
  }

  function RenamedScopes(scopes: set<Scope>, ids: map<string, string>): set<Scope> {
    set scope | scope in scopes :: RenamedScope(scope, ids)
  }

  function RenamedPayments(ps: seq<Payment>, ids: map<string, string>): (r: seq<Payment>)
    ensures |r| == |ps|
  {
    seq(|ps|, i requires 0 <= i < |ps| => RenamedPayment(ps[i], ids))
  }

  // One predicate per table: the rows are the source's, each under its new identifier, with its joins and
  // its identifier-shaped texts renamed.

  ghost predicate CompaniesCopied(m: map<Id, Company>, m': map<Id, Company>, ids: map<string, string>) {
    m'.Keys == RenamedSet(m.Keys, ids) && forall id :: id in m ==> Renamed(id, ids) in m' && m'[Renamed(id, ids)] == RenamedCompany(m[id], ids)
  }

  ghost predicate ClientsCopied(m: map<Id, Client>, m': map<Id, Client>, ids: map<string, string>) {
    m'.Keys == RenamedSet(m.Keys, ids)
    && forall id :: id in m ==> Renamed(id, ids) in m' && m'[Renamed(id, ids)] == RenamedClient(m[id], ids)
  }

  ghost predicate InvoicesCopied(m: map<Id, Invoice>, m': map<Id, Invoice>, ids: map<string, string>) {
    m'.Keys == RenamedSet(m.Keys, ids)
    && forall id :: id in m ==> Renamed(id, ids) in m' && m'[Renamed(id, ids)] == RenamedInvoice(m[id], ids)
  }

  ghost predicate QuotesCopied(m: map<Id, Quote>, m': map<Id, Quote>, ids: map<string, string>) {
    m'.Keys == RenamedSet(m.Keys, ids)
    && forall id :: id in m ==> Renamed(id, ids) in m' && m'[Renamed(id, ids)] == RenamedQuote(m[id], ids)
  }

  ghost predicate NotesCopied(m: map<Id, CreditNote>, m': map<Id, CreditNote>, ids: map<string, string>) {
    m'.Keys == RenamedSet(m.Keys, ids)
    && forall id :: id in m ==> Renamed(id, ids) in m' && m'[Renamed(id, ids)] == RenamedNote(m[id], ids)
  }

  /** The same payments, possibly in another order, and so the same sums. */
  ghost predicate PaymentsCopied(invoices: map<Id, Invoice>, ps: seq<Payment>, ps': seq<Payment>, ids: map<string, string>) {
    && multiset(ps') == multiset(RenamedPayments(ps, ids))
    && forall id :: id in invoices ==> PaidOn(ps', Renamed(id, ids)) == PaidOn(ps, id)
  }

  /** The counters, verbatim. */
  ghost predicate CountersCopied(m: map<Scope, nat>, m': map<Scope, nat>, ids: map<string, string>) {
    m'.Keys == RenamedScopes(m.Keys, ids)
    && forall scope :: scope in m ==> RenamedScope(scope, ids) in m' && m'[RenamedScope(scope, ids)] == m[scope]
  }

  ghost predicate Copied(s: Store, s': Store, ids: map<string, string>) {
    && CompaniesCopied(s.companies, s'.companies, ids)
    && ClientsCopied(s.clients, s'.clients, ids)
    && InvoicesCopied(s.invoices, s'.invoices, ids)
    && QuotesCopied(s.quotes, s'.quotes, ids)
    && NotesCopied(s.notes, s'.notes, ids)
    && PaymentsCopied(s.invoices, s.payments, s'.payments, ids)
    && CountersCopied(s.counters, s'.counters, ids)
  }

  /** The renaming covers every row and confuses none; identifiers are canonical before and after. */
  ghost predicate Covers(ids: map<string, string>, s: Store) {
    && Injective(ids)
    && CanonicalValues(ids)
    && s.companies.Keys + s.clients.Keys + s.invoices.Keys + s.quotes.Keys + s.notes.Keys <= ids.Keys
    && (forall id :: id in s.companies.Keys + s.clients.Keys + s.invoices.Keys + s.quotes.Keys + s.notes.Keys ==> Canonical(id))
  }

  lemma {:induction false} RenamedApart(ids: map<string, string>, a: Id, b: Id)
    requires Injective(ids) && a in ids && b in ids && Renamed(a, ids) == Renamed(b, ids)
    ensures a == b
  {
  }

  lemma {:induction false} Original(s: set<Id>, ids: map<string, string>, y: Id) returns (x: Id)
    requires y in RenamedSet(s, ids)
    ensures x in s && Renamed(x, ids) == y
  {
    x :| x in s && Renamed(x, ids) == y;
  }

  // ------------------------------------------------------------------ documents

  lemma {:induction false} SameDiscount(base: real, d: Option<Discount>, ids: map<string, string>)
    ensures DiscountAmount(base, RenamedDiscount(d, ids)) == DiscountAmount(base, d)
    ensures ValidDiscount(RenamedDiscount(d, ids)) == ValidDiscount(d)
  {
    hide RenamedText;
  }

  lemma {:induction false} SameLineMoney(l: InvoiceLine, ids: map<string, string>)
    ensures Gross(RenamedLine(l, ids)) == Gross(l) && LineDiscount(RenamedLine(l, ids)) == LineDiscount(l)
    ensures NetPre(RenamedLine(l, ids)) == NetPre(l) && RenamedLine(l, ids).rate == l.rate && RenamedLine(l, ids).category == l.category
    ensures CanonicalValues(ids) && ValidLine(l) ==> ValidLine(RenamedLine(l, ids))
  {
    SameDiscount(Gross(l), l.discount, ids);
    if CanonicalValues(ids) && ValidLine(l) {
      RenamedNonEmpty(l.description, ids);
    }
    hide RenamedText, RenamedDiscount, RenameText, RenamedOpt, DiscountAmount, ValidDiscount, CanonicalValues;
  }

  lemma {:induction false} SameRates(ls: seq<InvoiceLine>, ids: map<string, string>)
    ensures RatesOf(RenamedLines(ls, ids)) == RatesOf(ls)
  {
    assert forall i :: 0 <= i < |ls| ==> RatesOf(RenamedLines(ls, ids))[i] == RenamedLine(ls[i], ids).rate == ls[i].rate;
  }

  /** Renaming products and texts in lines leaves every amount alone. */
  lemma {:induction false} RenamedLinesMoney(ls: seq<InvoiceLine>, ids: map<string, string>)
    ensures Grosses(RenamedLines(ls, ids)) == Grosses(ls)
    ensures LineDiscounts(RenamedLines(ls, ids)) == LineDiscounts(ls)
    ensures NetsPre(RenamedLines(ls, ids)) == NetsPre(ls)
    ensures RatesOf(RenamedLines(ls, ids)) == RatesOf(ls)
  {
    SameRates(ls, ids);
    var rs := RenamedLines(ls, ids);
    forall i | 0 <= i < |ls|
      ensures Gross(rs[i]) == Gross(ls[i]) && LineDiscount(rs[i]) == LineDiscount(ls[i]) && NetPre(rs[i]) == NetPre(ls[i])
    {
      SameLineMoney(ls[i], ids);
    }
    hide Gross, LineDiscount, NetPre, RenamedLine;
  }

  lemma {:induction false} RenamedTotals(ls: seq<InvoiceLine>, discount: Option<Discount>, cur: Currency, ids: map<string, string>)
    ensures TotalsOf(RenamedLines(ls, ids), RenamedDiscount(discount, ids), cur) == TotalsOf(ls, discount, cur)
  {
    hide AllocatedNets, Quantize, Grosses, LineDiscounts, RenamedLines, RenamedDiscount, VatsOn, NetsPre, DiscountAmount, BreakdownOf,
         QuantizeEach, RatesOf;
    var rs, nets := RenamedLines(ls, ids), AllocatedNets(ls, discount);
    SameDiscount(TotalPre(ls), discount, ids);
    RenamedLinesMoney(ls, ids);
    RenamedNets(ls, discount, ids);
    RenamedVats(ls, nets, ids);
    SameBreakdown(rs, ls, nets);
  }

  lemma {:induction false} SameBreakdown(a: seq<InvoiceLine>, b: seq<InvoiceLine>, nets: seq<real>)
    requires |a| == |b| == |nets| && RatesOf(a) == RatesOf(b) && VatsOn(a, nets) == VatsOn(b, nets)
    ensures BreakdownOf(a, nets) == BreakdownOf(b, nets)
  {
    hide RatesOf, VatsOn;
  }

  lemma {:induction false} RenamedNets(ls: seq<InvoiceLine>, discount: Option<Discount>, ids: map<string, string>)
    ensures AllocatedNets(RenamedLines(ls, ids), RenamedDiscount(discount, ids)) == AllocatedNets(ls, discount)
  {
    var rs, d := RenamedLines(ls, ids), RenamedDiscount(discount, ids);
    RenamedLinesMoney(ls, ids);
    assert TotalPre(rs) == TotalPre(ls);
    SameDiscount(TotalPre(ls), discount, ids);
    hide NetPre, RenamedLines, RenamedDiscount, DiscountAmount, Sum, NetAfter;
    forall i | 0 <= i < |ls| ensures AllocatedNets(rs, d)[i] == AllocatedNets(ls, discount)[i] {
      assert NetsPre(rs)[i] == NetsPre(ls)[i];
    }
  }

  lemma {:induction false} RenamedVats(ls: seq<InvoiceLine>, nets: seq<real>, ids: map<string, string>)
    requires |nets| == |ls|
    ensures VatsOn(RenamedLines(ls, ids), nets) == VatsOn(ls, nets)
  {
    hide VatOn, RenamedText, RenamedDiscount, RenameText, RenamedOpt;
  }

  lemma {:induction false} RenamedLinesSound(ls: seq<InvoiceLine>, ids: map<string, string>)
    ensures CanonicalValues(ids) && ValidLines(ls) ==> ValidLines(RenamedLines(ls, ids))
    ensures forall line :: line in RenamedLines(ls, ids) ==> exists i :: 0 <= i < |ls| && line == RenamedLine(ls[i], ids)
  {
    var rs := RenamedLines(ls, ids);
    forall line | line in rs ensures exists i :: 0 <= i < |ls| && line == RenamedLine(ls[i], ids) {
      var i :| 0 <= i < |rs| && rs[i] == line;
      assert line == RenamedLine(ls[i], ids);
    }
    if CanonicalValues(ids) && ValidLines(ls) {
      hide ValidLine, CanonicalValues;
      forall line | line in rs ensures ValidLine(line) {
        var i :| 0 <= i < |ls| && line == RenamedLine(ls[i], ids);
        assert ls[i] in ls;
        SameLineMoney(ls[i], ids);
      }
    }
  }

  lemma {:induction false} PartiesCopied(s: Store, s': Store, ids: map<string, string>, companyId: Id, clientId: Id)
    requires CompaniesCopied(s.companies, s'.companies, ids) && ClientsCopied(s.clients, s'.clients, ids)
    requires PartiesExist(s.companies, s.clients, companyId, clientId)
    ensures PartiesExist(s'.companies, s'.clients, Renamed(companyId, ids), Renamed(clientId, ids))
  {
  }

  lemma {:induction false} LawfulCopied(inv: Invoice, ids: map<string, string>)
    requires LawfullyIssued(inv)
    ensures LawfullyIssued(RenamedInvoice(inv, ids))
  {
    var rs := RenamedLines(inv.lines, ids);
    RenamedLinesSound(inv.lines, ids);
    hide RenamedLine, RenamedText, RenameText, RenamedOpt, RenamedDiscount, Renamed, ValidLine;
    forall line | line in rs ensures !line.category.NotSubject? && (Compliance.ZeroRated(line.category) ==> line.rate == 0.0) {
      var i :| 0 <= i < |inv.lines| && line == RenamedLine(inv.lines[i], ids);
      assert inv.lines[i] in inv.lines;
      SameLineMoney(inv.lines[i], ids);
    }
  }

  lemma {:induction false} LifecycleCopied(inv: Invoice, ids: map<string, string>)
    requires LifecycleOk(inv)
    ensures LifecycleOk(RenamedInvoice(inv, ids))
  {
    hide LawfullyIssued;
    if inv.sequence.Some? {
      LawfulCopied(inv, ids);
    }
    hide RenameText, RenamedDiscount, Renamed, RenamedLines;
  }

  lemma {:induction false} TotalsCopied(ls: seq<InvoiceLine>, discount: Option<Discount>, cur: Currency, ids: map<string, string>)
    requires SoundLines(ls, discount) && CanonicalValues(ids)
    ensures SoundLines(RenamedLines(ls, ids), RenamedDiscount(discount, ids))
    ensures forall a, b, c, d :: TotalsFrozen(ls, discount, cur, a, b, c, d) ==>
      TotalsFrozen(RenamedLines(ls, ids), RenamedDiscount(discount, ids), cur, a, b, c, d)
  {
    hide TotalsOf, ValidLine, RenamedLine, RenamedDiscount, RenameText, ValidDiscount, CanonicalValues;
    RenamedTotals(ls, discount, cur, ids);
    RenamedLinesSound(ls, ids);
    SameDiscount(0.0, discount, ids);
  }

  lemma {:induction false} InvoiceCopyOk(s: Store, s': Store, ids: map<string, string>, inv: Invoice)
    requires CompaniesCopied(s.companies, s'.companies, ids) && ClientsCopied(s.clients, s'.clients, ids)
    requires InvoiceOk(s.companies, s.clients, inv) && CanonicalValues(ids)
    ensures InvoiceOk(s'.companies, s'.clients, RenamedInvoice(inv, ids))
  {
    hide CanonicalValues, CompaniesCopied, ClientsCopied, PartiesExist, SoundLines, TotalsFrozen, LifecycleOk, RenamedLines, RenamedDiscount, RenameText,
         RenamedText, Renamed;
    PartiesCopied(s, s', ids, inv.companyId, inv.clientId);
    TotalsCopied(inv.lines, inv.discount, inv.currency, ids);
    LifecycleCopied(inv, ids);
  }

  lemma {:induction false} QuoteCopyOk(s: Store, s': Store, ids: map<string, string>, q: Quote)
    requires CompaniesCopied(s.companies, s'.companies, ids) && ClientsCopied(s.clients, s'.clients, ids)
    requires QuoteOk(s.companies, s.clients, q) && CanonicalValues(ids)
    ensures QuoteOk(s'.companies, s'.clients, RenamedQuote(q, ids))
  {
    hide CanonicalValues, CompaniesCopied, ClientsCopied, PartiesExist, SoundLines, TotalsFrozen, RenamedLines, RenamedDiscount, RenameText, RenamedText, Renamed;
    PartiesCopied(s, s', ids, q.companyId, q.clientId);
    TotalsCopied(q.lines, q.discount, q.currency, ids);
  }

  // ------------------------------------------------------------------ tables

  lemma {:induction false} InvoicesCarryOver(s: Store, s': Store, ids: map<string, string>)
    requires CompaniesCopied(s.companies, s'.companies, ids) && ClientsCopied(s.clients, s'.clients, ids)
    requires InvoicesCopied(s.invoices, s'.invoices, ids) && InvoicesOk(s.companies, s.clients, s.invoices) && CanonicalValues(ids)
    ensures InvoicesOk(s'.companies, s'.clients, s'.invoices)
  {
    hide CompaniesCopied, ClientsCopied, InvoiceOk, RenamedInvoice, CanonicalValues;
    forall y | y in s'.invoices ensures InvoiceOk(s'.companies, s'.clients, s'.invoices[y]) {
      var x := Original(s.invoices.Keys, ids, y);
      InvoiceCopyOk(s, s', ids, s.invoices[x]);
    }
  }

  lemma {:induction false} QuotesCarryOver(s: Store, s': Store, ids: map<string, string>)
    requires CompaniesCopied(s.companies, s'.companies, ids) && ClientsCopied(s.clients, s'.clients, ids)
    requires QuotesCopied(s.quotes, s'.quotes, ids) && QuotesOk(s.companies, s.clients, s.quotes) && CanonicalValues(ids)
    ensures QuotesOk(s'.companies, s'.clients, s'.quotes)
  {
    hide CompaniesCopied, ClientsCopied, QuoteOk, RenamedQuote, CanonicalValues;
    forall y | y in s'.quotes ensures QuoteOk(s'.companies, s'.clients, s'.quotes[y]) {
      var x := Original(s.quotes.Keys, ids, y);
      QuoteCopyOk(s, s', ids, s.quotes[x]);
    }
  }

  lemma {:induction false} ClientsCarryOver(s: Store, s': Store, ids: map<string, string>)
    requires CompaniesCopied(s.companies, s'.companies, ids) && ClientsCopied(s.clients, s'.clients, ids)
    requires ClientsOk(s.companies, s.clients)
    ensures ClientsOk(s'.companies, s'.clients)
  {
    forall y | y in s'.clients ensures s'.clients[y].companyId in s'.companies {
      var x := Original(s.clients.Keys, ids, y);
    }
  }

  lemma {:induction false} PaidCopied(inv: Invoice, paid: real, ids: map<string, string>)
    requires PaidMatches(inv, paid)
    ensures PaidMatches(RenamedInvoice(inv, ids), paid)
  {
    hide Renamed, RenamedLines, RenamedDiscount, RenamedText, RenameText, RenamedOpt;
  }

  lemma {:induction false} PaymentCopyOk(invoices: map<Id, Invoice>, invoices': map<Id, Invoice>, ids: map<string, string>, p: Payment)
    requires InvoicesCopied(invoices, invoices', ids)
    requires p.amount > 0.0 && p.invoiceId in invoices && p.currency == invoices[p.invoiceId].currency
    ensures var q := RenamedPayment(p, ids);
            q.amount > 0.0 && q.invoiceId in invoices' && q.currency == invoices'[q.invoiceId].currency
  {
    hide Renamed, RenamedLines, RenamedDiscount, RenamedText, RenameText, RenamedOpt;
  }

  lemma {:induction false} PaymentsCarryOver(s: Store, s': Store, ids: map<string, string>)
    requires InvoicesCopied(s.invoices, s'.invoices, ids) && PaymentsCopied(s.invoices, s.payments, s'.payments, ids)
    requires PaymentsOk(s.invoices, s.payments)
    ensures PaymentsOk(s'.invoices, s'.payments)
  {
    hide PaidOn, PaidMatches, RenamedInvoice, Renamed, RenamedPayment;
    forall p | p in s'.payments ensures p.amount > 0.0 && p.invoiceId in s'.invoices && p.currency == s'.invoices[p.invoiceId].currency {
      assert p in multiset(RenamedPayments(s.payments, ids));
      var i :| 0 <= i < |s.payments| && RenamedPayments(s.payments, ids)[i] == p;
      assert s.payments[i] in s.payments;
      PaymentCopyOk(s.invoices, s'.invoices, ids, s.payments[i]);
    }
    forall y | y in s'.invoices ensures PaidMatches(s'.invoices[y], PaidOn(s'.payments, y)) {
      var x := Original(s.invoices.Keys, ids, y);
      assert PaidMatches(s.invoices[x], PaidOn(s.payments, x));
      PaidCopied(s.invoices[x], PaidOn(s.payments, x), ids);
    }
  }

  lemma {:induction false} NoteCopyOk(s: Store, s': Store, ids: map<string, string>, x: Id)
    requires InvoicesCopied(s.invoices, s'.invoices, ids) && NotesCopied(s.notes, s'.notes, ids)
    requires NotesOk(s.invoices, s.notes) && x in s.notes
    ensures var n := s'.notes[Renamed(x, ids)];
            n.invoiceId in s'.invoices && s'.invoices[n.invoiceId].voidedBy == Some(Renamed(x, ids)) && NoteMirrors(n, s'.invoices[n.invoiceId])
  {
    var inv := s.invoices[s.notes[x].invoiceId];
    MirrorsCopied(s.notes[x], inv, ids);
    assert RenamedInvoice(inv, ids).voidedBy == Some(Renamed(x, ids));
    hide Renamed, RenamedLines, NoteMirrors, RenamedNoteLines, RenamedSet, RenamedDiscount, RenamedText, RenameText;
  }

  lemma {:induction false} VoidedCopyOk(s: Store, s': Store, ids: map<string, string>, x: Id)
    requires InvoicesCopied(s.invoices, s'.invoices, ids) && NotesCopied(s.notes, s'.notes, ids)
    requires NotesOk(s.invoices, s.notes) && x in s.invoices && s.invoices[x].voidedBy.Some?
    ensures var n := s'.invoices[Renamed(x, ids)].voidedBy;
            n.Some? && n.value in s'.notes && s'.notes[n.value].invoiceId == Renamed(x, ids)
  {
    hide Renamed, RenamedLines, NoteMirrors, RenamedNoteLines, RenamedSet, RenamedDiscount, RenamedText, RenameText;
  }

  lemma {:induction false} EveryNoteCopied(s: Store, s': Store, ids: map<string, string>)
    requires InvoicesCopied(s.invoices, s'.invoices, ids) && NotesCopied(s.notes, s'.notes, ids)
    requires NotesOk(s.invoices, s.notes)
    ensures forall y :: y in s'.notes ==>
      s'.notes[y].invoiceId in s'.invoices && s'.invoices[s'.notes[y].invoiceId].voidedBy == Some(y)
      && NoteMirrors(s'.notes[y], s'.invoices[s'.notes[y].invoiceId])
  {
    hide Renamed, NoteMirrors, RenamedInvoice, RenamedNote, InvoicesCopied, NotesOk;
    forall y | y in s'.notes
      ensures s'.notes[y].invoiceId in s'.invoices && s'.invoices[s'.notes[y].invoiceId].voidedBy == Some(y)
           && NoteMirrors(s'.notes[y], s'.invoices[s'.notes[y].invoiceId])
    {
      var x := Original(s.notes.Keys, ids, y);
      NoteCopyOk(s, s', ids, x);
    }
  }

  lemma {:induction false} EveryVoidedCopied(s: Store, s': Store, ids: map<string, string>)
    requires InvoicesCopied(s.invoices, s'.invoices, ids) && NotesCopied(s.notes, s'.notes, ids)
    requires NotesOk(s.invoices, s.notes)
    ensures forall y :: y in s'.invoices && s'.invoices[y].voidedBy.Some? ==>
      s'.invoices[y].voidedBy.value in s'.notes && s'.notes[s'.invoices[y].voidedBy.value].invoiceId == y
  {
    hide Renamed, NoteMirrors, RenamedInvoice, RenamedNote, NotesCopied, NotesOk;
    forall y | y in s'.invoices && s'.invoices[y].voidedBy.Some?
      ensures s'.invoices[y].voidedBy.value in s'.notes && s'.notes[s'.invoices[y].voidedBy.value].invoiceId == y
    {
      var x := Original(s.invoices.Keys, ids, y);
      VoidedOriginal(s, s', ids, x);
      VoidedCopyOk(s, s', ids, x);
    }
  }

  lemma {:induction false} NotesAssembled(invoices: map<Id, Invoice>, notes: map<Id, CreditNote>)
    requires forall y :: y in notes ==>
      notes[y].invoiceId in invoices && invoices[notes[y].invoiceId].voidedBy == Some(y) && NoteMirrors(notes[y], invoices[notes[y].invoiceId])
    requires forall y :: y in invoices && invoices[y].voidedBy.Some? ==>
      invoices[y].voidedBy.value in notes && notes[invoices[y].voidedBy.value].invoiceId == y
    ensures NotesOk(invoices, notes)
  {
    hide NoteMirrors;
  }

  lemma {:induction false} NotesCarryOver(s: Store, s': Store, ids: map<string, string>)
    requires InvoicesCopied(s.invoices, s'.invoices, ids) && NotesCopied(s.notes, s'.notes, ids)
    requires NotesOk(s.invoices, s.notes)
    ensures NotesOk(s'.invoices, s'.notes)
  {
    hide InvoicesCopied, NotesCopied, NoteMirrors, NotesOk;
    EveryNoteCopied(s, s', ids);
    EveryVoidedCopied(s, s', ids);
    NotesAssembled(s'.invoices, s'.notes);
  }

  lemma {:induction false} VoidedOriginal(s: Store, s': Store, ids: map<string, string>, x: Id)
    requires InvoicesCopied(s.invoices, s'.invoices, ids) && x in s.invoices
    ensures s'.invoices[Renamed(x, ids)].voidedBy.Some? <==> s.invoices[x].voidedBy.Some?
  {
    hide Renamed, RenamedLines, RenamedDiscount, RenamedText, RenameText;
  }

  lemma {:induction false} MirrorsCopied(note: CreditNote, inv: Invoice, ids: map<string, string>)
    requires NoteMirrors(note, inv)
    ensures NoteMirrors(RenamedNote(note, ids), RenamedInvoice(inv, ids))
  {
    hide Renamed, RenamedDiscount, RenamedText, RenameText, RenamedOpt;
    forall i | 0 <= i < |inv.lines|
      ensures RenamedNoteLines(note.lines, ids)[i] == MirroredLines(RenamedLines(inv.lines, ids))[i]
    {
    }
  }

  // ------------------------------------------------------------------ series

  /** A series under new identifiers: tickets renamed one by one, counters verbatim. */
  ghost predicate TicketsCopied(t: map<Id, Ticket>, t': map<Id, Ticket>, ids: map<string, string>) {
    && t'.Keys == RenamedSet(t.Keys, ids)
    && forall id :: id in t ==> Renamed(id, ids) in t' && t'[Renamed(id, ids)] == Ticket(Renamed(t[id].companyId, ids), t[id].number)
  }

  /** A series counter belongs to the renamed company and has the same value; no other company has one. */
  ghost predicate SeriesCopied(m: map<Scope, nat>, m': map<Scope, nat>, ids: map<string, string>, companies: set<Id>, name: string) {
    && (forall c :: c in companies ==> CounterOf(m', Scope(Renamed(c, ids), name)) == CounterOf(m, Scope(c, name)))
    && (forall c: Id :: c !in RenamedSet(companies, ids) ==> CounterOf(m', Scope(c, name)) == 0)
  }

  lemma {:induction false} GaplessCopied(t: map<Id, Ticket>, t': map<Id, Ticket>, m: map<Scope, nat>, m': map<Scope, nat>,
                                         ids: map<string, string>, companies: set<Id>, name: string)
    requires TicketsCopied(t, t', ids) && SeriesCopied(m, m', ids, companies, name)
    requires Injective(ids) && companies <= ids.Keys && t.Keys <= ids.Keys
    requires forall id :: id in t ==> t[id].companyId in companies
    ensures UniqueSeries(t, m, name) ==> UniqueSeries(t', m', name)
    ensures NoGap(t, m, name) ==> NoGap(t', m', name)
  {
    hide CounterOf, Renamed;
    if UniqueSeries(t, m, name) {
      UniqueCopied(t, t', m, m', ids, companies, name);
    }
    if NoGap(t, m, name) {
      NoGapCopied(t, t', m, m', ids, companies, name);
    }
  }

  lemma {:induction false} TicketOriginal(t: map<Id, Ticket>, t': map<Id, Ticket>, ids: map<string, string>, y: Id) returns (x: Id)
    requires TicketsCopied(t, t', ids) && y in t'
    ensures x in t && Renamed(x, ids) == y && t'[y] == Ticket(Renamed(t[x].companyId, ids), t[x].number)
  {
    hide Renamed;
    x := Original(t.Keys, ids, y);
  }

  lemma {:induction false} UniqueCopied(t: map<Id, Ticket>, t': map<Id, Ticket>, m: map<Scope, nat>, m': map<Scope, nat>,
                                        ids: map<string, string>, companies: set<Id>, name: string)
    requires TicketsCopied(t, t', ids) && SeriesCopied(m, m', ids, companies, name)
    requires Injective(ids) && companies <= ids.Keys && t.Keys <= ids.Keys
    requires forall id :: id in t ==> t[id].companyId in companies
    requires UniqueSeries(t, m, name)
    ensures UniqueSeries(t', m', name)
  {
    hide CounterOf, Renamed, Injective, TicketsCopied;
    forall y | y in t' ensures 1 <= t'[y].number <= CounterOf(m', Scope(t'[y].companyId, name)) {
      var x := TicketOriginal(t, t', ids, y);
    }
    hide SeriesCopied;
    forall y, z | y in t' && z in t' && t'[y] == t'[z] ensures y == z {
      var a := TicketOriginal(t, t', ids, y);
      var b := TicketOriginal(t, t', ids, z);
      RenamedApart(ids, t[a].companyId, t[b].companyId);
    }
  }

  lemma {:induction false} NoGapCopied(t: map<Id, Ticket>, t': map<Id, Ticket>, m: map<Scope, nat>, m': map<Scope, nat>,
                                       ids: map<string, string>, companies: set<Id>, name: string)
    requires TicketsCopied(t, t', ids) && SeriesCopied(m, m', ids, companies, name)
    requires NoGap(t, m, name)
    ensures NoGap(t', m', name)
  {
    hide CounterOf, Renamed;
    forall c: Id, n: nat | 1 <= n <= CounterOf(m', Scope(c, name)) ensures InUse(t', c, n) {
      assert c in RenamedSet(companies, ids);
      var d := Original(companies, ids, c);
      assert InUse(t, d, n);
      var x :| x in t && t[x] == Ticket(d, n);
      assert t'[Renamed(x, ids)] == Ticket(c, n);
    }
  }

  lemma {:induction false} InvoiceTicketsCopied(invoices: map<Id, Invoice>, invoices': map<Id, Invoice>, ids: map<string, string>)
    requires InvoicesCopied(invoices, invoices', ids)
    ensures TicketsCopied(InvoiceTickets(invoices), InvoiceTickets(invoices'), ids)
  {
    hide Renamed, RenamedLines, RenamedDiscount, RenamedText, RenamedOpt, RenameText;
    var t, t' := InvoiceTickets(invoices), InvoiceTickets(invoices');
    forall x | x in invoices ensures x in t <==> Renamed(x, ids) in t' {
      assert invoices'[Renamed(x, ids)].sequence == invoices[x].sequence;
    }
    forall y | y in t' ensures y in RenamedSet(t.Keys, ids) {
      var x := Original(invoices.Keys, ids, y);
      assert x in t.Keys;
    }
    assert t'.Keys == RenamedSet(t.Keys, ids);
  }

  lemma {:induction false} NoteTicketsCopied(notes: map<Id, CreditNote>, notes': map<Id, CreditNote>, ids: map<string, string>)
    requires NotesCopied(notes, notes', ids)
    ensures TicketsCopied(NoteTickets(notes), NoteTickets(notes'), ids)
  {
    hide Renamed;
    assert NoteTickets(notes).Keys == notes.Keys && NoteTickets(notes').Keys == notes'.Keys;
  }

  lemma {:induction false} QuoteTicketsCopied(quotes: map<Id, Quote>, quotes': map<Id, Quote>, ids: map<string, string>)
    requires QuotesCopied(quotes, quotes', ids)
    ensures TicketsCopied(QuoteTickets(quotes), QuoteTickets(quotes'), ids)
  {
    hide Renamed;
    assert QuoteTickets(quotes).Keys == quotes.Keys && QuoteTickets(quotes').Keys == quotes'.Keys;
  }

  // ------------------------------------------------------------------ counters

  function BucketTail(year: nat, month: nat): string {
    ":" + Padded(year, 4) + "-" + Padded(month, 2)
  }

  /** The walk renames the client inside a bucket scope, and nothing else of it. */
  lemma {:induction false} BucketRenamed(c: Id, year: nat, month: nat, ids: map<string, string>)
    requires Canonical(c)
    ensures RenameText(MonthlyBucket(c, year, month), ids) == MonthlyBucket(Renamed(c, ids), year, month)
  {
    var s, tail := MonthlyBucket(c, year, month), BucketTail(year, month);
    assert s == "bucket:" + c + tail;
    TailShape(year, month);
    hide Padded;
    assert !MatchesUuid(s) by { assert s[1] == 'u'; }
    assert WithoutFinalNewline(s) == s by { assert s[|s| - 1] == tail[|tail| - 1]; }
    assert s[..7] == "bucket:" && s[7..43] == c && s[43..] == tail && s[43] == tail[0];
    assert BucketGroups(s) == Some((c, tail));
    assert MonthlyBucket(Renamed(c, ids), year, month) == "bucket:" + Renamed(c, ids) + tail;
  }

  lemma {:induction false} TailShape(year: nat, month: nat)
    ensures var tail := BucketTail(year, month);
            |tail| >= 2 && tail[0] == ':' && '\n' !in tail && tail[|tail| - 1] != '\n'
  {
    var y, m := Padded(year, 4), Padded(month, 2);
    hide Padded;
    assert forall i :: 0 <= i < |y| ==> IsDigit(y[i]);
    assert forall i :: 0 <= i < |m| ==> IsDigit(m[i]);
    var tail := BucketTail(year, month);
    assert tail[|tail| - 1] == m[|m| - 1];
  }

  lemma {:induction false} SeriesUnrenamed(name: string, ids: map<string, string>)
    requires IsSeries(name)
    ensures RenameText(name, ids) == name
  {
    assert |name| <= 11;
  }

  /** A scope name under the renaming, with the client its bucket names. */
  ghost predicate BucketName(s: Store, name: string, renamed: string, ids: map<string, string>, c: Id, y: nat, m: nat) {
    && c in s.clients && Canonical(c) && c in ids && name == MonthlyBucket(c, y, m) && renamed == MonthlyBucket(Renamed(c, ids), y, m)
  }

  lemma {:induction false} NameUnder(s: Store, ids: map<string, string>, a: Scope) returns (c: Id, y: nat, m: nat)
    requires Covers(ids, s) && KnownScope(s.companies, s.clients, a)
    ensures IsSeries(a.name) ==> RenameText(a.name, ids) == a.name
    ensures !IsSeries(a.name) ==> BucketName(s, a.name, RenameText(a.name, ids), ids, c, y, m)
  {
    hide RenameText, MonthlyBucket, Injective, CanonicalValues, Canonical, IsSeries, Renamed;
    if IsSeries(a.name) {
      c, y, m := "", 0, 0;
      SeriesUnrenamed(a.name, ids);
    } else {
      c, y, m :| IsBucketOf(s.clients, a, c, y, m);
      assert c in s.clients.Keys;
      BucketRenamed(c, y, m, ids);
    }
  }

  lemma {:induction false} SeriesIsNoBucket(name: string, c: Id, y: nat, m: nat)
    requires IsSeries(name)
    ensures name != MonthlyBucket(c, y, m)
  {
    hide MonthlyBucket;
    BucketIsNoSeries(c, y, m);
  }

  /** Scopes of one ledger never meet under the renaming. */
  lemma {:induction false} ScopesApart(s: Store, ids: map<string, string>, a: Scope, b: Scope)
    requires Covers(ids, s) && KnownScope(s.companies, s.clients, a) && KnownScope(s.companies, s.clients, b)
    requires RenamedScope(a, ids) == RenamedScope(b, ids)
    ensures a == b
  {
    hide RenameText, MonthlyBucket, Injective, CanonicalValues, Canonical, IsSeries, IsBucketOf, Renamed;
    CompaniesCovered(s, ids, a, b);
    RenamedApart(ids, a.companyId, b.companyId);
    var c, y, m := NameUnder(s, ids, a);
    var c', y', m' := NameUnder(s, ids, b);
    hide KnownScope;
    if IsSeries(a.name) && !IsSeries(b.name) {
      SeriesIsNoBucket(a.name, Renamed(c', ids), y', m');
    } else if !IsSeries(a.name) && IsSeries(b.name) {
      SeriesIsNoBucket(b.name, Renamed(c, ids), y, m);
    } else if !IsSeries(a.name) {
      ValuesCanonical(ids, c, c');
      BucketsApart(c, y, m, c', y', m', ids);
    }
  }

  lemma {:induction false} CompaniesCovered(s: Store, ids: map<string, string>, a: Scope, b: Scope)
    requires Covers(ids, s) && KnownScope(s.companies, s.clients, a) && KnownScope(s.companies, s.clients, b)
    ensures a.companyId in ids && b.companyId in ids
  {
    hide Injective, Canonical, IsSeries, IsBucketOf;
    assert a.companyId in s.companies.Keys && b.companyId in s.companies.Keys;
  }

  lemma {:induction false} ValuesCanonical(ids: map<string, string>, c: Id, c': Id)
    requires CanonicalValues(ids) && c in ids && c' in ids
    ensures Canonical(ids[c]) && Canonical(ids[c'])
  {
    hide Canonical;
  }

  lemma {:induction false} BucketsApart(c: Id, y: nat, m: nat, c': Id, y': nat, m': nat, ids: map<string, string>)
    requires Injective(ids) && c in ids && c' in ids && Canonical(ids[c]) && Canonical(ids[c'])
    requires MonthlyBucket(Renamed(c, ids), y, m) == MonthlyBucket(Renamed(c', ids), y', m')
    ensures MonthlyBucket(c, y, m) == MonthlyBucket(c', y', m')
  {
    hide Padded;
    var b, b' := MonthlyBucket(ids[c], y, m), MonthlyBucket(ids[c'], y', m');
    assert b == "bucket:" + ids[c] + BucketTail(y, m) && b' == "bucket:" + ids[c'] + BucketTail(y', m');
    assert b[7..43] == ids[c] && b'[7..43] == ids[c'];
    assert b[43..] == BucketTail(y, m) && b'[43..] == BucketTail(y', m');
    assert c == c';
    assert MonthlyBucket(c, y, m) == "bucket:" + c + BucketTail(y, m);
    assert MonthlyBucket(c', y', m') == "bucket:" + c' + BucketTail(y', m');
  }

  /** Counters travel verbatim: every scope a ledger can draw from reads the same before and after. */
  lemma {:induction false} CountersVerbatim(s: Store, s': Store, ids: map<string, string>, scope: Scope)
    requires Covers(ids, s) && ScopesOk(s) && CountersCopied(s.counters, s'.counters, ids)
    requires KnownScope(s.companies, s.clients, scope)
    ensures CounterOf(s'.counters, RenamedScope(scope, ids)) == CounterOf(s.counters, scope)
  {
    hide KnownScope, RenamedScope, Covers;
    if scope !in s.counters && RenamedScope(scope, ids) in s'.counters {
      assert RenamedScope(scope, ids) in RenamedScopes(s.counters.Keys, ids);
      var x :| x in s.counters.Keys && RenamedScope(x, ids) == RenamedScope(scope, ids);
      ScopesApart(s, ids, x, scope);
    }
  }

  lemma {:induction false} SeriesVerbatim(s: Store, s': Store, ids: map<string, string>, name: string, c: Id)
    requires Covers(ids, s) && ScopesOk(s) && CountersCopied(s.counters, s'.counters, ids) && IsSeries(name) && c in s.companies
    ensures CounterOf(s'.counters, Scope(Renamed(c, ids), name)) == CounterOf(s.counters, Scope(c, name))
  {
    hide Covers, ScopesOk, CountersCopied, RenameText, CounterOf, Renamed, IsSeries;
    SeriesUnrenamed(name, ids);
    KnownSeries(s, name, c);
    hide KnownScope;
    CountersVerbatim(s, s', ids, Scope(c, name));
  }

  lemma {:induction false} KnownSeries(s: Store, name: string, c: Id)
    requires IsSeries(name) && c in s.companies
    ensures KnownScope(s.companies, s.clients, Scope(c, name))
  {
  }

  /** Every counter of the copy belongs to a renamed company. */
  lemma {:induction false} CountersBelong(s: Store, s': Store, ids: map<string, string>, y: Scope)
    requires ScopesOk(s) && CountersCopied(s.counters, s'.counters, ids) && y in s'.counters
    ensures y.companyId in RenamedSet(s.companies.Keys, ids)
  {
    hide Renamed, RenameText;
    assert y in RenamedScopes(s.counters.Keys, ids);
    var x :| x in s.counters.Keys && RenamedScope(x, ids) == y;
    assert KnownScope(s.companies, s.clients, x);
    assert x.companyId in s.companies.Keys;
  }

  lemma {:induction false} SeriesFromCounters(s: Store, s': Store, ids: map<string, string>, name: string)
    requires Covers(ids, s) && ScopesOk(s) && CountersCopied(s.counters, s'.counters, ids) && IsSeries(name)
    ensures SeriesCopied(s.counters, s'.counters, ids, s.companies.Keys, name)
  {
    hide Covers, ScopesOk, CountersCopied, RenameText, Renamed, RenamedSet, IsSeries;
    forall c | c in s.companies.Keys ensures CounterOf(s'.counters, Scope(Renamed(c, ids), name)) == CounterOf(s.counters, Scope(c, name)) {
      SeriesVerbatim(s, s', ids, name, c);
    }
    forall c: Id | c !in RenamedSet(s.companies.Keys, ids) ensures CounterOf(s'.counters, Scope(c, name)) == 0 {
      if Scope(c, name) in s'.counters {
        CountersBelong(s, s', ids, Scope(c, name));
        assert false;
      }
    }
  }

  lemma {:induction false} SeriesCarryOver(s: Store, s': Store, ids: map<string, string>)
    requires Inv(s) && ScopesOk(s) && Covers(ids, s) && Copied(s, s', ids)
    ensures SeriesOk(s')
  {
    hide Inv, ScopesOk, SeriesCopied, TicketsCopied, UniqueSeries, NoGap, InvoiceTickets, NoteTickets, QuoteTickets, Injective,
         CompaniesCopied, ClientsCopied, InvoicesCopied, QuotesCopied, NotesCopied, PaymentsCopied, CountersCopied, Canonical;
    SeriesFromCounters(s, s', ids, INVOICE_SERIES);
    SeriesFromCounters(s, s', ids, CREDIT_NOTE_SERIES);
    SeriesFromCounters(s, s', ids, QUOTE_SERIES);
    InvoiceTicketsCopied(s.invoices, s'.invoices, ids);
    NoteTicketsCopied(s.notes, s'.notes, ids);
    QuoteTicketsCopied(s.quotes, s'.quotes, ids);
    TicketsBelong(s);
    GaplessCopied(InvoiceTickets(s.invoices), InvoiceTickets(s'.invoices), s.counters, s'.counters, ids, s.companies.Keys, INVOICE_SERIES);
    GaplessCopied(NoteTickets(s.notes), NoteTickets(s'.notes), s.counters, s'.counters, ids, s.companies.Keys, CREDIT_NOTE_SERIES);
    GaplessCopied(QuoteTickets(s.quotes), QuoteTickets(s'.quotes), s.counters, s'.counters, ids, s.companies.Keys, QUOTE_SERIES);
  }

  lemma {:induction false} TicketsBelong(s: Store)
    requires Inv(s)
    ensures SeriesOk(s)
    ensures InvoiceTickets(s.invoices).Keys <= s.invoices.Keys && NoteTickets(s.notes).Keys == s.notes.Keys
    ensures QuoteTickets(s.quotes).Keys == s.quotes.Keys
    ensures forall id :: id in InvoiceTickets(s.invoices) ==> InvoiceTickets(s.invoices)[id].companyId in s.companies.Keys
    ensures forall id :: id in NoteTickets(s.notes) ==> NoteTickets(s.notes)[id].companyId in s.companies.Keys
    ensures forall id :: id in QuoteTickets(s.quotes) ==> QuoteTickets(s.quotes)[id].companyId in s.companies.Keys
  {
    hide SoundLines, TotalsFrozen, LifecycleOk, PaymentsOk, SeriesOk;
  }

  /** The same ledger under new identifiers satisfies the same invariant: gapless series, paid
      amounts, frozen totals and the bijection between voided invoices and credit notes carry over. */
  lemma {:induction false} CopyKeepsInv(s: Store, s': Store, ids: map<string, string>)
    requires Inv(s) && ScopesOk(s) && Covers(ids, s) && Copied(s, s', ids) && IdsOk(s')
    ensures Inv(s')
  {
    SeriesCarryOver(s, s', ids);
    assert CanonicalValues(ids);
    hide CanonicalValues, Covers, ScopesOk, IdsOk, ClientsOk, InvoicesOk, QuotesOk, PaymentsOk, NotesOk, SeriesOk, CompaniesCopied, ClientsCopied,
         InvoicesCopied, QuotesCopied, NotesCopied, PaymentsCopied, CountersCopied;
    ClientsCarryOver(s, s', ids);
    InvoicesCarryOver(s, s', ids);
    QuotesCarryOver(s, s', ids);
    PaymentsCarryOver(s, s', ids);
    NotesCarryOver(s, s', ids);
  }

  // References are texts too: two of one company could meet under the renaming.

  ghost predicate InvoiceReferencesApart(m: map<Id, Invoice>, ids: map<string, string>) {
    forall a, b :: a in m && b in m && a != b && m[a].companyId == m[b].companyId && m[a].reference.Some? ==>
      RenamedText(m[a].reference, ids) != RenamedText(m[b].reference, ids)
  }

  ghost predicate NoteReferencesApart(m: map<Id, CreditNote>, ids: map<string, string>) {
    forall a, b :: a in m && b in m && a != b && m[a].companyId == m[b].companyId ==>
      RenameText(m[a].reference, ids) != RenameText(m[b].reference, ids)
  }

  ghost predicate QuoteReferencesApart(m: map<Id, Quote>, ids: map<string, string>) {
    forall a, b :: a in m && b in m && a != b && m[a].companyId == m[b].companyId ==>
      RenameText(m[a].reference, ids) != RenameText(m[b].reference, ids)
  }

  ghost predicate ReferencesApart(s: Store, ids: map<string, string>) {
    InvoiceReferencesApart(s.invoices, ids) && NoteReferencesApart(s.notes, ids) && QuoteReferencesApart(s.quotes, ids)
  }

  lemma {:induction false} InvoiceReferencesCopied(s: Store, s': Store, ids: map<string, string>)
    requires Injective(ids) && InvoicesCopied(s.invoices, s'.invoices, ids) && InvoiceReferencesApart(s.invoices, ids)
    requires forall id :: id in s.invoices ==> s.invoices[id].companyId in ids
    ensures InvoiceReferencesUnique(s'.invoices)
  {
    hide Injective, RenamedLines, RenamedNoteLines, Renamed, RenamedOpt, RenamedDiscount, RenameText;
    forall y, z | y in s'.invoices && z in s'.invoices && y != z && s'.invoices[y].companyId == s'.invoices[z].companyId && s'.invoices[y].reference.Some?
      ensures s'.invoices[y].reference != s'.invoices[z].reference
    {
      var a := Original(s.invoices.Keys, ids, y);
      var b := Original(s.invoices.Keys, ids, z);
      RenamedApart(ids, s.invoices[a].companyId, s.invoices[b].companyId);
    }
  }

  lemma {:induction false} NoteReferencesCopied(s: Store, s': Store, ids: map<string, string>)
    requires Injective(ids) && NotesCopied(s.notes, s'.notes, ids) && NoteReferencesApart(s.notes, ids)
    requires forall id :: id in s.notes ==> s.notes[id].companyId in ids
    ensures NoteReferencesUnique(s'.notes)
  {
    hide Injective, RenamedLines, RenamedNoteLines, Renamed, RenamedOpt, RenameText;
    forall y, z | y in s'.notes && z in s'.notes && y != z && s'.notes[y].companyId == s'.notes[z].companyId
      ensures s'.notes[y].reference != s'.notes[z].reference
    {
      var a := Original(s.notes.Keys, ids, y);
      var b := Original(s.notes.Keys, ids, z);
      RenamedApart(ids, s.notes[a].companyId, s.notes[b].companyId);
    }
  }

  lemma {:induction false} QuoteReferencesCopied(s: Store, s': Store, ids: map<string, string>)
    requires Injective(ids) && QuotesCopied(s.quotes, s'.quotes, ids) && QuoteReferencesApart(s.quotes, ids)
    requires forall id :: id in s.quotes ==> s.quotes[id].companyId in ids
    ensures QuoteReferencesUnique(s'.quotes)
  {
    hide Injective, RenamedLines, RenamedNoteLines, Renamed, RenamedOpt, RenamedDiscount, RenameText, RenamedText;
    forall y, z | y in s'.quotes && z in s'.quotes && y != z && s'.quotes[y].companyId == s'.quotes[z].companyId
      ensures s'.quotes[y].reference != s'.quotes[z].reference
    {
      var a := Original(s.quotes.Keys, ids, y);
      var b := Original(s.quotes.Keys, ids, z);
      RenamedApart(ids, s.quotes[a].companyId, s.quotes[b].companyId);
    }
  }

  /** And the further invariants, so that the copy can be backed up in its turn. */
  lemma {:induction false} CopyKeepsKeys(s: Store, s': Store, ids: map<string, string>)
    requires Inv(s) && KeysOk(s) && ReferencesApart(s, ids) && Covers(ids, s) && Copied(s, s', ids)
    ensures KeysOk(s')
  {
    hide Inv, ScopesOk, CompaniesCopied, ClientsCopied, InvoicesCopied, NotesCopied, QuotesCopied, CountersCopied, PaymentsCopied, Canonical,
         Injective, InvoiceReferencesUnique, NoteReferencesUnique, QuoteReferencesUnique, InvoiceReferencesApart, NoteReferencesApart,
         QuoteReferencesApart;
    ScopesCarryOver(s, s', ids);
    CompaniesBelong(s);
    InvoiceReferencesCopied(s, s', ids);
    NoteReferencesCopied(s, s', ids);
    QuoteReferencesCopied(s, s', ids);
  }

  lemma {:induction false} CompaniesBelong(s: Store)
    requires Inv(s)
    ensures forall id :: id in s.invoices ==> s.invoices[id].companyId in s.companies.Keys
    ensures forall id :: id in s.notes ==> s.notes[id].companyId in s.companies.Keys
    ensures forall id :: id in s.quotes ==> s.quotes[id].companyId in s.companies.Keys
  {
    hide TotalsFrozen, SoundLines, LifecycleOk, SeriesOk, PaidMatches;
  }

  lemma {:induction false} ScopeCarriesOver(s: Store, s': Store, ids: map<string, string>, x: Scope)
    requires Covers(ids, s) && CompaniesCopied(s.companies, s'.companies, ids) && ClientsCopied(s.clients, s'.clients, ids)
    requires KnownScope(s.companies, s.clients, x)
    ensures KnownScope(s'.companies, s'.clients, RenamedScope(x, ids))
  {
    hide Canonical, Injective, MonthlyBucket, RenameText;
    if IsSeries(x.name) {
      SeriesUnrenamed(x.name, ids);
    } else {
      var c: Id, year: nat, month: nat :| IsBucketOf(s.clients, x, c, year, month);
      assert c in s.clients.Keys;
      BucketRenamed(c, year, month, ids);
      assert IsBucketOf(s'.clients, RenamedScope(x, ids), Renamed(c, ids), year, month);
    }
  }

  lemma {:induction false} ScopesCarryOver(s: Store, s': Store, ids: map<string, string>)
    requires Covers(ids, s) && ScopesOk(s) && Copied(s, s', ids)
    ensures ScopesOk(s')
  {
    hide Covers, KnownScope, RenamedScope, CompaniesCopied, ClientsCopied, InvoicesCopied, NotesCopied, QuotesCopied, PaymentsCopied;
    forall y | y in s'.counters ensures KnownScope(s'.companies, s'.clients, y) {
      assert y in RenamedScopes(s.counters.Keys, ids);
      var x :| x in s.counters.Keys && RenamedScope(x, ids) == y;
      ScopeCarriesOver(s, s', ids, x);
    }
  }
}
