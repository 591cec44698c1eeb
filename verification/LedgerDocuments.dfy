// What reachable ledgers guarantee about the documents made from them: the XML of an issued invoice,
// and the VAT a credit note takes back.
module LedgerDocuments {
  import opened Common
  import opened Calendar
  import opened Money
  import opened Lines
  import opened CurrencyMath
  import opened UblBuilder
  import opened Compliance
  import opened Numbering
  import opened Store
  import opened Transactions
  import opened LedgerInvariant
  import opened LedgerReferences
  import opened VatReports

  /** After any run, for the rest of it: the XML of a numbered invoice states the totals frozen on the row
      whenever the two documents carry the same tax; and when the builder spreads the document discount as
      the engine does, its tax subtotals are the invoice's VAT buckets. */
  lemma {:induction false} FrozenTotalsInXml(s: Store, cs: seq<Command>, id: Id)
    requires s == EMPTY && id in Run(s, cs).invoices && Run(s, cs).invoices[id].sequence.Some?
    ensures var inv := Run(s, cs).invoices[id];
            var x := AmountsOf(inv.lines, inv.discount, inv.currency);
            && (SameTax(inv.lines, inv.discount) ==> x.taxTotal == inv.totalVat && x.payable == inv.totalTtc)
            && (SameSpread(inv.lines, inv.discount) ==>
                  multiset(x.subtotals) == multiset(BucketsOf(inv.lines, inv.discount, inv.currency)))
  {
    var t := Run(s, cs);
    var inv := t.invoices[id];
    EmptyStoreOk(s);
    RunKeepsInv(s, cs);
    hide *;
    FrozenTotals(t, id);
    if SameSpread(inv.lines, inv.discount) {
      SameSpreadSameTax(inv.lines, inv.discount);
    }
    if SameTax(inv.lines, inv.discount) {
      XmlAgreesWithTotals(inv.lines, inv.discount, inv.currency);
    }
  }

  lemma {:induction false} FrozenTotals(s: Store, id: Id)
    requires Inv(s) && id in s.invoices
    ensures var inv := s.invoices[id];
            && inv.lines != [] && ValidDiscount(inv.discount)
            && inv.totalVat == TotalsOf(inv.lines, inv.discount, inv.currency).totalVat
            && inv.totalTtc == TotalsOf(inv.lines, inv.discount, inv.currency).totalTtc
  {
    hide Inv, TotalsOf, ValidDiscount, ValidLines;
    InvoiceFacts(s, id);
    hide PaidMatches, PaidOn, LifecycleOk, InvoicesOk, PaymentsOk, NotesOk, SeriesOk;
  }

  /** And every subtotal of a category other than the standard one carries no tax, because the gate let
      no other rate through (rules BR-Z-09, BR-E-09, BR-AE-09, BR-IC-09 and BR-G-09 of EN 16931-1). */
  lemma {:induction false} ZeroRatedXmlCarriesNoTax(s: Store, cs: seq<Command>, id: Id, j: nat)
    requires s == EMPTY && id in Run(s, cs).invoices && Run(s, cs).invoices[id].sequence.Some?
    requires var inv := Run(s, cs).invoices[id];
             var subtotals := SubtotalsOf(inv.lines, inv.discount, inv.currency);
             j < |subtotals| && ZeroRated(subtotals[j].key.category)
    ensures var inv := Run(s, cs).invoices[id];
            SubtotalsOf(inv.lines, inv.discount, inv.currency)[j].vatAmount == 0
  {
    EmptyStoreOk(s);
    RunKeepsInv(s, cs);
    hide Run, Inv;
    var inv := Run(s, cs).invoices[id];
    InvoiceFacts(Run(s, cs), id);
    LawfulSubtotals(inv, j);
  }

  lemma {:induction false} LawfulSubtotals(inv: Invoice, j: nat)
    requires LawfullyIssued(inv) && j < |SubtotalsOf(inv.lines, inv.discount, inv.currency)|
    requires ZeroRated(SubtotalsOf(inv.lines, inv.discount, inv.currency)[j].key.category)
    ensures SubtotalsOf(inv.lines, inv.discount, inv.currency)[j].vatAmount == 0
  {
    SubtotalKeyIsALine(inv.lines, inv.discount, inv.currency, j);
    var i :| 0 <= i < |inv.lines| && KeyOf(inv.lines[i]) == SubtotalsOf(inv.lines, inv.discount, inv.currency)[j].key;
    assert inv.lines[i] in inv.lines;
    hide SubtotalsOf;
    ZeroRateSubtotalCarriesNoTax(inv.lines, inv.discount, inv.currency, j);
  }

  lemma {:induction false} SubtotalKeyIsALine(lines: seq<InvoiceLine>, discount: Option<Discount>, cur: Currency, j: nat)
    requires j < |SubtotalsOf(lines, discount, cur)|
    ensures exists i :: 0 <= i < |lines| && KeyOf(lines[i]) == SubtotalsOf(lines, discount, cur)[j].key
  {
    var k := XmlKeys(lines)[j];
    assert SubtotalsOf(lines, discount, cur)[j].key == k;
    assert k in KeysOf(lines);
    var i :| 0 <= i < |lines| && KeysOf(lines)[i] == k;
    assert KeyOf(lines[i]) == k;
  }

  /** In every reachable ledger a credit note takes back, key by key and to the unit, the VAT its
      invoice declared, when nothing had been deducted from that invoice. */
  lemma {:induction false} ReachableNotesCancel(s: Store, cs: seq<Command>, n: Id)
    requires s == EMPTY && n in Run(s, cs).notes
    ensures var t := Run(s, cs);
            && t.notes[n].invoiceId in t.invoices
            && (NothingDeducted(t.invoices[t.notes[n].invoiceId]) ==>
                  NoteDocument(t.notes[n]).buckets == InvoiceDocument(t.invoices[t.notes[n].invoiceId]).buckets)
            && Declarable(t.invoices[t.notes[n].invoiceId])
  {
    EmptyStoreOk(s);
    RunKeepsInv(s, cs);
    hide *;
    var t := Run(s, cs);
    NoteOfInvoice(t, n);
    var note := t.notes[n];
    VoidedIsDeclarable(t, note.invoiceId);
    if NothingDeducted(t.invoices[note.invoiceId]) {
      NoteCancelsInvoice(t.invoices[note.invoiceId], note);
    }
  }

  lemma {:induction false} NoteOfInvoice(s: Store, n: Id)
    requires Inv(s) && n in s.notes
    ensures var note := s.notes[n];
            && note.invoiceId in s.invoices && s.invoices[note.invoiceId].voidedBy.Some?
            && NoteLines(s.invoices[note.invoiceId]) == AsInvoiceLines(note.lines) && note.currency == s.invoices[note.invoiceId].currency
  {
    hide Inv, AsInvoiceLines, MirroredLines;
    StoreFacts(s);
    hide InvoicesOk, PaymentsOk, SeriesOk;
  }

  lemma {:induction false} VoidedIsDeclarable(s: Store, id: Id)
    requires Inv(s) && id in s.invoices && s.invoices[id].voidedBy.Some?
    ensures Declarable(s.invoices[id])
  {
    hide Inv;
    InvoiceFacts(s, id);
  }

  /** Compliance survives the issue: whatever happens later, a numbered invoice has a line, a due date
      not before its issue date, and rate zero on every zero-rated line. */
  lemma {:induction false} NumberedIsLawful(s: Store, cs: seq<Command>, id: Id)
    requires s == EMPTY && id in Run(s, cs).invoices && Run(s, cs).invoices[id].sequence.Some?
    ensures var inv := Run(s, cs).invoices[id];
            && inv.lines != [] && inv.dueDate.Some? && NotAfter(inv.issueDate, inv.dueDate.value)
            && forall line :: line in inv.lines && ZeroRated(line.category) ==> line.rate == 0.0
  {
    EmptyStoreOk(s);
    RunKeepsInv(s, cs);
    hide Run, Inv;
    InvoiceFacts(Run(s, cs), id);
  }

  // ------------------------------------------------------------------ and a ledger where they differ

  /** The offer of `OverDiscounted`, for a private customer in the supplier's own country. */
  function OverDiscountedRequest(companyId: Id, clientId: Id, lines: seq<InvoiceLine>, day: Date): DraftRequest {
    DraftRequest(companyId, clientId, lines, Some(day), Some(day), Some(Discount(FIXED, 5.0, None)), None, None, Some("classic"), Some(EUR))
  }

  lemma {:induction false} RenumberedOverDiscounted(lines: seq<InvoiceLine>)
    requires ValidLines(lines) && OverDiscounted(lines)
    ensures OverDiscounted(Renumbered(lines)) && ValidLines(Renumbered(lines))
  {
    assert lines[0] in lines && lines[1] in lines;
    RenumberedValid(lines);
    forall i | 0 <= i < 2
      ensures Gross(Renumbered(lines)[i]) == Gross(lines[i]) && LineDiscount(Renumbered(lines)[i]) == LineDiscount(lines[i])
    {
    }
    hide Gross, LineDiscount;
  }

  /** The domain model accepts the draft: no total is negative. */
  lemma {:induction false} OverDiscountedDrafted(s: Store, id: Id, companyId: Id, clientId: Id, lines: seq<InvoiceLine>, day: Date)
    requires companyId in s.companies && clientId in s.clients && s.clients[clientId].companyId == companyId && id !in s.usedIds
    requires ValidLines(lines) && OverDiscounted(lines)
    ensures var r := CreateDraft(s, id, OverDiscountedRequest(companyId, clientId, lines, day), day);
            && r.Ok? && id in r.value.invoices
            && r.value.companies == s.companies && r.value.clients == s.clients && r.value.counters == s.counters
            && r.value.invoices == s.invoices[id := NewDraft(s.companies[companyId], OverDiscountedRequest(companyId, clientId, lines, day), day)]
  {
    hide OverDiscounted, TotalsOf, Renumbered, ValidLines;
    RenumberedOverDiscounted(lines);
    assert lines != [] by { OverDiscountedLines(lines); }
    XmlDisagreesWhenNetNegative(Renumbered(lines), Some(Discount(FIXED, 5.0, None)));
    hide AmountsOf;
  }

  lemma {:induction false} OverDiscountedLines(lines: seq<InvoiceLine>)
    requires OverDiscounted(lines)
    ensures lines != []
  {
  }

  /** And the gate lets it through: rates and categories are lawful. */
  lemma {:induction false} OverDiscountedPasses(s: Store, inv: Invoice, day: Date)
    requires inv.companyId in s.companies && inv.clientId in s.clients && OverDiscounted(inv.lines)
    requires forall line :: line in inv.lines ==> line.category.Standard?
    ensures IssueFindings(s, inv, day, day, []) == []
  {
    var parties := PartiesOf(s.companies[inv.companyId], s.clients[inv.clientId]);
    OverDiscountedLines(inv.lines);
    assert BlockingOf([]) == [];
    hide OverDiscounted, PartiesOf, CheckedInvoice, BlockingOf, IsEuMember;
    GateOpensIff([], inv.lines, parties, day, Some(day), Blank(inv.paymentTerms));
  }

  /** The first invoice of a ledger meets no other. */
  lemma {:induction false} FirstInvoiceNumbered(s: Store, id: Id, day: Date)
    requires s.invoices.Keys == {id} && s.counters == map[] && day.year >= 1000
    requires var inv := s.invoices[id];
             inv.status.Draft? && inv.companyId in s.companies && inv.clientId in s.clients
             && inv.issueDate == day && inv.dueDate == Some(day) && IssueFindings(s, inv, day, day, []) == []
    ensures var r := IssueInvoice(s, id, None, None, []);
            && r.Ok? && id in r.value.invoices
            && exists reference :: r.value.invoices[id] == IssuedInvoice(s.invoices[id], reference, 1, day, day)
  {
    hide IssueFindings, IssuedInvoice, DisplayReference, BucketScope;
    var inv := s.invoices[id];
    var counters := InvoiceNumbers(s.counters, inv, day);
    assert CounterOf(counters, BucketScope(inv, day)) >= 1;
    ReferenceExists(s.companies[inv.companyId].prefix, s.clients[inv.clientId].name, day, CounterOf(counters, BucketScope(inv, day)));
    var reference := DisplayReference(s.companies[inv.companyId].prefix, s.clients[inv.clientId].name, day.month,
                                      CounterOf(counters, BucketScope(inv, day)), day.year).value;
    assert !InvoiceKeyTaken(s.invoices, id, IssuedInvoice(inv, reference, 1, day, day));
    hide InvoiceKeyTaken, InvoiceNumbers;
    assert NumberInvoice(s, id, day, day).value.invoices[id] == IssuedInvoice(inv, reference, 1, day, day);
  }

  /** What the draft holds. */
  lemma {:induction false} DraftedContent(company: Company, companyId: Id, clientId: Id, lines: seq<InvoiceLine>, day: Date)
    requires ValidLines(lines) && OverDiscounted(lines) && forall line :: line in lines ==> line.category.Standard?
    ensures var inv := NewDraft(company, OverDiscountedRequest(companyId, clientId, lines, day), day);
            && inv.companyId == companyId && inv.clientId == clientId && inv.status.Draft?
            && inv.issueDate == day && inv.dueDate == Some(day)
            && OverDiscounted(inv.lines) && FiveOff(inv.discount) && inv.currency == EUR
            && forall line :: line in inv.lines ==> line.category.Standard?
  {
    RenumberedOverDiscounted(lines);
    RenumberedStandard(lines);
    hide OverDiscounted, ValidLines, Renumbered, TotalsOf;
  }

  /** What the issue freezes. */
  lemma {:induction false} IssuedMisstated(inv: Invoice, reference: string, day: Date)
    requires OverDiscounted(inv.lines) && FiveOff(inv.discount) && inv.currency == EUR
    ensures Misstated(IssuedInvoice(inv, reference, 1, day, day))
  {
    hide OverDiscounted, FiveOff, TotalsOf, AmountsOf;
    XmlDisagreesWhenNetNegative(inv.lines, inv.discount);
  }

  /** Two transactions later the ledger holds an issued invoice whose row says 6.30 of VAT and 6.30 to pay, while
      its XML says 0.00 and 0.00. */
  lemma {:induction false} OverDiscountedIssued(s: Store, id: Id, companyId: Id, clientId: Id, lines: seq<InvoiceLine>, day: Date)
    requires companyId in s.companies && clientId in s.clients && s.clients[clientId].companyId == companyId && id !in s.usedIds
    requires s.invoices == map[] && s.counters == map[] && day.year >= 1000
    requires ValidLines(lines) && OverDiscounted(lines) && forall line :: line in lines ==> line.category.Standard?
    ensures var drafted := CreateDraft(s, id, OverDiscountedRequest(companyId, clientId, lines, day), day);
            && drafted.Ok?
            && var issued := IssueInvoice(drafted.value, id, None, None, []);
               issued.Ok? && id in issued.value.invoices && Misstated(issued.value.invoices[id])
  {
    hide *;
    var r := OverDiscountedRequest(companyId, clientId, lines, day);
    OverDiscountedDrafted(s, id, companyId, clientId, lines, day);
    DraftedContent(s.companies[companyId], companyId, clientId, lines, day);
    var drafted := CreateDraft(s, id, r, day).value;
    var inv := drafted.invoices[id];
    OverDiscountedPasses(drafted, inv, day);
    FirstInvoiceNumbered(drafted, id, day);
    var reference :| IssueInvoice(drafted, id, None, None, []).value.invoices[id] == IssuedInvoice(inv, reference, 1, day, day);
    IssuedMisstated(inv, reference, day);
  }

  lemma {:induction false} StepsTaken(s: Store, id: Id, r: DraftRequest, day: Date)
    requires CreateDraft(s, id, r, day).Ok? && IssueInvoice(CreateDraft(s, id, r, day).value, id, None, None, []).Ok?
    ensures Step(Step(s, DoCreateDraft(id, r, day)), DoIssue(id, None, None, []))
         == IssueInvoice(CreateDraft(s, id, r, day).value, id, None, None, []).value
  {
    hide CreateDraft, IssueInvoice;
  }

  /** Numbered, with other totals on its row than in its XML. */
  ghost predicate Misstated(inv: Invoice) {
    && inv.status.Issued? && inv.sequence == Some(1)
    && inv.totalVat == 630 && inv.totalTtc == 630
    && AmountsOf(inv.lines, inv.discount, inv.currency).taxTotal == 0
    && AmountsOf(inv.lines, inv.discount, inv.currency).payable == 0
  }

  lemma {:induction false} RenumberedStandard(lines: seq<InvoiceLine>)
    requires forall line :: line in lines ==> line.category.Standard?
    ensures forall line :: line in Renumbered(lines) ==> line.category.Standard?
  {
    forall line | line in Renumbered(lines) ensures line.category.Standard? {
      var i :| 0 <= i < |lines| && Renumbered(lines)[i] == line;
      assert lines[i] in lines;
    }
  }

  lemma {:induction false} RunTwo(s: Store, a: Command, b: Command)
    ensures Run(s, [a, b]) == Step(Step(s, a), b)
  {
    hide Step;
    assert [a, b][..1] == [a] && [a][..0] == [];
    assert Run(s, [a]) == Step(Run(s, []), a);
  }

  lemma {:induction false} RunThenTwo(s: Store, cs: seq<Command>, a: Command, b: Command)
    ensures Run(s, cs + [a, b]) == Step(Step(Run(s, cs), a), b)
  {
    hide Step;
    assert (cs + [a, b])[..|cs| + 1] == cs + [a] && (cs + [a])[..|cs|] == cs;
  }

  /** A company and a client, and nothing else. */
  lemma {:induction false} NewLedger(companyId: Id, company: Company, clientId: Id, client: Client) returns (s: Store)
    requires companyId != clientId && client.companyId == companyId && |company.prefix| <= PREFIX_LENGTH
    ensures s == Run(EMPTY, [DoAddCompany(companyId, company), DoAddClient(clientId, client)])
    ensures companyId in s.companies && clientId in s.clients && s.clients[clientId].companyId == companyId
    ensures s.invoices == map[] && s.counters == map[] && s.usedIds == {companyId, clientId}
  {
    var empty := EMPTY;
    RunTwo(empty, DoAddCompany(companyId, company), DoAddClient(clientId, client));
    hide Run;
    s := Step(Step(empty, DoAddCompany(companyId, company)), DoAddClient(clientId, client));
  }

  /** So the condition above is needed: an empty organization reaches a ledger with a numbered invoice whose
      row and XML disagree on the tax and on the amount to pay. */
  lemma {:induction false} MisstatedIsReachable() returns (cs: seq<Command>, id: Id)
    ensures id in Run(EMPTY, cs).invoices && Misstated(Run(EMPTY, cs).invoices[id])
  {
    var lines := OverDiscountedExists();
    var day: Date, prefix := YMD(2025, 1, 31), "ACM";
    assert |prefix| <= PREFIX_LENGTH;
    hide *;
    var company, client := Company("Acme", prefix, "BE", EUR, "classic"), Client("company", "Jane", "BE", false, None);
    var setup := [DoAddCompany("company", company), DoAddClient("client", client)];
    var s := NewLedger("company", company, "client", client);
    id := "invoice";
    var r := OverDiscountedRequest("company", "client", lines, day);
    cs := setup + [DoCreateDraft(id, r, day), DoIssue(id, None, None, [])];
    RunThenTwo(EMPTY, setup, DoCreateDraft(id, r, day), DoIssue(id, None, None, []));
    OverDiscountedIssued(s, id, "company", "client", lines, day);
    StepsTaken(s, id, r, day);
  }
}
