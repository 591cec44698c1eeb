// What the use-cases of core/services/invoice_service.py, credit_note_service.py and payment_service.py
// accept and what they leave behind, in the fields of the rows and of the request.
module LedgerEffects {
  import opened Common
  import opened Calendar
  import opened Money
  import opened Lines
  import opened Text
  import opened CurrencyMath
  import opened Compliance
  import opened Numbering
  import opened Store
  import opened Transactions
  import opened LedgerInvariant
  import opened LedgerReferences
  import opened PlainAmounts

  // ------------------------------------------------------------------ payments

  /** Whether an amount in the currency's unit is at most, or exactly, a total in smallest units. */
  predicate AtMost(amount: real, total: int, cur: Currency) {
    amount * UnitsIn(cur) <= total as real
  }

  predicate Exactly(amount: real, total: int, cur: Currency) {
    amount * UnitsIn(cur) == total as real
  }

  lemma {:induction false} MajorIs(amount: real, total: int, cur: Currency)
    ensures AtMost(amount, total, cur) <==> amount <= Major(total, cur)
    ensures Exactly(amount, total, cur) <==> amount == Major(total, cur)
  {
  }

  /** A positive amount that together with the earlier payments stays within the total, on an invoice that is there
      and neither a draft nor voided. */
  ghost predicate Payable(s: Store, id: Id, amount: real) {
    && id in s.invoices
    && s.invoices[id].status != Draft && s.invoices[id].status != Voided
    && 0.0 < amount
    && AtMost(PaidOn(s.payments, id) + amount, s.invoices[id].totalTtc, s.invoices[id].currency)
  }

  /** The row after such a payment: paid exactly when nothing is left to pay. */
  ghost function PaidRow(s: Store, id: Id, amount: real): Invoice
    requires id in s.invoices
  {
    var inv := s.invoices[id];
    var settled := Exactly(PaidOn(s.payments, id) + amount, inv.totalTtc, inv.currency);
    inv.(status := if settled then Paid else PartiallyPaid)
  }

  /** Which payments are accepted. */
  lemma {:induction false} PaymentAcceptedIff(s: Store, id: Id, amount: real, paidOn: Date, reference: Option<string>)
    ensures RecordPayment(s, id, amount, paidOn, reference).Ok? <==> Payable(s, id, amount)
  {
    if id in s.invoices {
      MajorIs(PaidOn(s.payments, id) + amount, s.invoices[id].totalTtc, s.invoices[id].currency);
    }
    hide Major, PaidOn, AtMost, Exactly;
  }

  /** What an accepted payment leaves behind: itself, the row, and nothing else but its audit entry. */
  lemma {:induction false} PaymentEffect(s: Store, id: Id, amount: real, paidOn: Date, reference: Option<string>)
    requires RecordPayment(s, id, amount, paidOn, reference).Ok?
    ensures var s', inv := RecordPayment(s, id, amount, paidOn, reference).value, s.invoices[id];
            && s'.payments == s.payments + [Payment(id, amount, inv.currency, paidOn, reference)]
            && s'.invoices == s.invoices[id := PaidRow(s, id, amount)]
            && s'.audit == s.audit + [AuditEntry(Pay, "invoice", Some(id))]
            && s' == s.(payments := s'.payments, invoices := s'.invoices, audit := s'.audit)
            && PaidOn(s'.payments, id) == PaidOn(s.payments, id) + amount
  {
    MajorIs(PaidOn(s.payments, id) + amount, s.invoices[id].totalTtc, s.invoices[id].currency);
    PaidOnSnoc(s.payments, Payment(id, amount, s.invoices[id].currency, paidOn, reference), id);
    hide Major, PaidOn, AtMost, Exactly;
  }

  /** What is still to be paid. */
  function Outstanding(s: Store, id: Id): real
    requires id in s.invoices
  {
    s.invoices[id].totalTtc as real / UnitsIn(s.invoices[id].currency) - PaidOn(s.payments, id)
  }

  lemma {:induction false} OutstandingIs(s: Store, id: Id, amount: real)
    requires id in s.invoices
    ensures var inv, paid := s.invoices[id], PaidOn(s.payments, id);
            && (amount <= Outstanding(s, id) <==> AtMost(paid + amount, inv.totalTtc, inv.currency))
            && (amount == Outstanding(s, id) <==> Exactly(paid + amount, inv.totalTtc, inv.currency))
            && (amount <= Outstanding(s, id) <==> paid + amount <= Major(inv.totalTtc, inv.currency))
            && (amount == Outstanding(s, id) <==> paid + amount == Major(inv.totalTtc, inv.currency))
  {
    hide PaidOn;
  }

  /** After any run an invoice reads paid exactly when it is numbered, not voided, was to be paid something and
      nothing of it is outstanding. */
  lemma {:induction false} PaidIff(cs: seq<Command>, id: Id)
    requires id in Run(EMPTY, cs).invoices
    ensures var s := Run(EMPTY, cs);
            var inv := s.invoices[id];
            inv.status == Paid <==> && inv.sequence.Some? && inv.status != Voided && inv.totalTtc > 0 && Outstanding(s, id) == 0.0
  {
    var s := Run(EMPTY, cs);
    ReachableInv(cs);
    hide Run, Inv;
    InvoiceFacts(s, id);
    OutstandingIs(s, id, 0.0);
    MajorPositive(s.invoices[id].totalTtc, s.invoices[id].currency);
    hide Outstanding, Major, PaidOn, InvoicesOk, PaymentsOk, NotesOk, SeriesOk, TotalsFrozen, SoundLines;
  }

  lemma {:induction false} MajorPositive(units: int, cur: Currency)
    ensures Major(units, cur) > 0.0 <==> units > 0
  {
  }

  lemma {:induction false} ReachableInv(cs: seq<Command>)
    ensures Inv(Run(EMPTY, cs))
  {
    hide Inv, Run;
    var empty := EMPTY;
    EmptyStoreOk(empty);
    RunKeepsInv(empty, cs);
  }

  /** From every reachable ledger, paying what an issued invoice still has to receive succeeds and leaves it paid. */
  lemma {:induction false} OutstandingSettles(cs: seq<Command>, s: Store, id: Id, paidOn: Date, reference: Option<string>)
    requires s == Run(EMPTY, cs) && id in s.invoices && s.invoices[id].totalTtc > 0
    requires s.invoices[id].status == Issued || s.invoices[id].status == PartiallyPaid
    ensures 0.0 < Outstanding(s, id) && Settled(s, id, RecordPayment(s, id, Outstanding(s, id), paidOn, reference))
  {
    ReachableInv(cs);
    hide Run, Inv, RecordPayment, Outstanding, PaidOn, AtMost, Exactly, Settled;
    SomethingLeft(s, id);
    var left := Outstanding(s, id);
    OutstandingIs(s, id, left);
    PaymentAcceptedIff(s, id, left, paidOn, reference);
    PaymentEffect(s, id, left, paidOn, reference);
    var s' := RecordPayment(s, id, left, paidOn, reference).value;
    LeftAfter(s, s', id, left);
    IsSettled(s, id, s');
  }

  /** Accepted, and the row reads paid with nothing outstanding. */
  ghost predicate Settled(s: Store, id: Id, r: Result<Store>)
    requires id in s.invoices
  {
    r.Ok? && id in r.value.invoices && r.value.invoices[id] == s.invoices[id].(status := Paid) && Outstanding(r.value, id) == 0.0
  }

  lemma {:induction false} IsSettled(s: Store, id: Id, s': Store)
    requires id in s.invoices && id in s'.invoices && s'.invoices[id] == s.invoices[id].(status := Paid) && Outstanding(s', id) == 0.0
    ensures Settled(s, id, Ok(s'))
  {
    hide Outstanding;
  }

  lemma {:induction false} SomethingLeft(s: Store, id: Id)
    requires Inv(s) && id in s.invoices && s.invoices[id].totalTtc > 0
    requires s.invoices[id].status == Issued || s.invoices[id].status == PartiallyPaid
    ensures 0.0 < Outstanding(s, id)
  {
    hide Inv;
    InvoiceFacts(s, id);
    hide PaidOn;
  }

  lemma {:induction false} LeftAfter(s: Store, s': Store, id: Id, amount: real)
    requires id in s.invoices && id in s'.invoices && s'.invoices[id] == s.invoices[id].(status := s'.invoices[id].status)
    requires PaidOn(s'.payments, id) == PaidOn(s.payments, id) + amount
    ensures Outstanding(s', id) == Outstanding(s, id) - amount
  {
    hide PaidOn;
  }

  function Instalments(id: Id, amounts: seq<real>, paidOn: Date, reference: Option<string>): (r: seq<Command>)
    ensures |r| == |amounts|
  {
    seq(|amounts|, i requires 0 <= i < |amounts| => DoPay(id, amounts[i], paidOn, reference))
  }

  lemma {:induction false} LastInstalment(s: Store, id: Id, amounts: seq<real>, paidOn: Date, reference: Option<string>)
    requires amounts != []
    ensures var n := |amounts| - 1;
            Run(s, Instalments(id, amounts, paidOn, reference))
            == Step(Run(s, Instalments(id, amounts[..n], paidOn, reference)), DoPay(id, amounts[n], paidOn, reference))
  {
    hide *;
    InstalmentAt(id, amounts, paidOn, reference);
    RunLast(s, Instalments(id, amounts, paidOn, reference));
  }

  lemma {:induction false} InstalmentAt(id: Id, amounts: seq<real>, paidOn: Date, reference: Option<string>)
    requires amounts != []
    ensures var n := |amounts| - 1;
            && Instalments(id, amounts, paidOn, reference)[n] == DoPay(id, amounts[n], paidOn, reference)
            && Instalments(id, amounts, paidOn, reference)[..n] == Instalments(id, amounts[..n], paidOn, reference)
  {
  }

  lemma {:induction false} RunLast(s: Store, cs: seq<Command>)
    requires cs != []
    ensures Run(s, cs) == Step(Run(s, cs[..|cs| - 1]), cs[|cs| - 1])
  {
    hide Step;
  }

  lemma {:induction false} NoRun(s: Store, id: Id, paidOn: Date, reference: Option<string>)
    ensures Run(s, Instalments(id, [], paidOn, reference)) == s
  {
  }

  lemma {:induction false} PayStep(s: Store, id: Id, amount: real, paidOn: Date, reference: Option<string>)
    requires RecordPayment(s, id, amount, paidOn, reference).Ok?
    ensures Step(s, DoPay(id, amount, paidOn, reference)) == RecordPayment(s, id, amount, paidOn, reference).value
  {
    hide RecordPayment;
  }

  lemma {:induction false} PositiveSum(amounts: seq<real>)
    requires forall i :: 0 <= i < |amounts| ==> amounts[i] > 0.0
    ensures Sum(amounts) >= 0.0 && (amounts != [] ==> Sum(amounts) > 0.0)
  {
    if amounts != [] {
      PositiveSum(amounts[..|amounts| - 1]);
    }
  }

  /** The invoice after n more payments of x in all. */
  ghost predicate Received(s: Store, t: Store, id: Id, x: real, n: nat)
    requires id in s.invoices
  {
    && id in t.invoices
    && t.invoices[id] == s.invoices[id].(status := if x == 0.0 then s.invoices[id].status else if x == Outstanding(s, id) then Paid else PartiallyPaid)
    && Outstanding(t, id) == Outstanding(s, id) - x
    && |t.payments| == |s.payments| + n
  }

  lemma {:induction false} NothingReceived(s: Store, id: Id)
    requires id in s.invoices
    ensures Received(s, s, id, 0.0, 0)
  {
    hide Outstanding;
  }

  lemma {:induction false} OneReceived(s: Store, t: Store, id: Id, x: real, n: nat, amount: real, paidOn: Date, reference: Option<string>)
    requires id in s.invoices && s.invoices[id].status != Draft && s.invoices[id].status != Voided && Received(s, t, id, x, n)
    requires 0.0 <= x && 0.0 < amount && x + amount <= Outstanding(s, id)
    ensures Received(s, Step(t, DoPay(id, amount, paidOn, reference)), id, x + amount, n + 1)
  {
    hide Step, PaidOn, Outstanding, RecordPayment, AtMost, Exactly;
    OutstandingIs(t, id, amount);
    PaymentAcceptedIff(t, id, amount, paidOn, reference);
    PayStep(t, id, amount, paidOn, reference);
    PaymentEffect(t, id, amount, paidOn, reference);
    LeftAfter(t, RecordPayment(t, id, amount, paidOn, reference).value, id, amount);
  }

  lemma {:induction false} SumLast(amounts: seq<real>)
    requires amounts != [] && forall i :: 0 <= i < |amounts| ==> amounts[i] > 0.0
    ensures var n := |amounts| - 1; Sum(amounts) == Sum(amounts[..n]) + amounts[n] && Sum(amounts[..n]) >= 0.0
  {
    PositiveSum(amounts[..|amounts| - 1]);
  }

  /** An invoice may be paid in instalments: positive amounts that stay within what is outstanding are all
      accepted, and the row reads paid after them exactly when they make up all of it. */
  lemma {:induction false} InstalmentsAccepted(s: Store, id: Id, amounts: seq<real>, paidOn: Date, reference: Option<string>)
    requires id in s.invoices && s.invoices[id].status != Draft && s.invoices[id].status != Voided
    requires (forall i :: 0 <= i < |amounts| ==> amounts[i] > 0.0) && Sum(amounts) <= Outstanding(s, id)
    ensures Received(s, Run(s, Instalments(id, amounts, paidOn, reference)), id, Sum(amounts), |amounts|)
  {
    if amounts == [] {
      NoRun(s, id, paidOn, reference);
      assert Sum(amounts) == 0.0;
      NothingReceived(s, id);
    } else {
      hide *;
      var n := |amounts| - 1;
      SumLast(amounts);
      InstalmentsAccepted(s, id, amounts[..n], paidOn, reference);
      LastInstalment(s, id, amounts, paidOn, reference);
      OneReceived(s, Run(s, Instalments(id, amounts[..n], paidOn, reference)), id, Sum(amounts[..n]), n, amounts[n], paidOn, reference);
    }
  }

  // ------------------------------------------------------------------ dates

  /** The date an issue writes: the caller's if there is one, else the draft's own. */
  predicate IssuedOn(date: Date, chosen: Option<Date>, own: Date) {
    (chosen.Some? ==> date == chosen.value) && (chosen.None? ==> date == own)
  }

  /** The due date: the caller's if there is one, else the draft's own if it has one, else the thirtieth day after
      the issue date. */
  predicate DueOn(due: Date, chosen: Option<Date>, own: Option<Date>, issued: Date) {
    && (chosen.Some? ==> due == chosen.value)
    && (chosen.None? && own.Some? ==> due == own.value)
    && (chosen.None? && own.None? ==> Ordinal(due) == Ordinal(issued) + 30)
  }

  lemma {:induction false} DueIs(inv: Invoice, issued: Date, chosen: Option<Date>)
    ensures EffectiveDueDate(inv, issued, chosen).Some? ==> DueOn(EffectiveDueDate(inv, issued, chosen).value, chosen, inv.dueDate, issued)
    ensures EffectiveDueDate(inv, issued, chosen).None?
        <==> chosen.None? && inv.dueDate.None? && Ordinal(issued) + 30 > LAST_DAY
  {
    AddDaysOrdinal(issued, DEFAULT_PAYMENT_TERM_DAYS);
    hide AddDays, Ordinal;
  }

  lemma {:induction false} DueIsUnique(a: Date, b: Date, chosen: Option<Date>, own: Option<Date>, issued: Date)
    requires DueOn(a, chosen, own, issued) && DueOn(b, chosen, own, issued)
    ensures a == b
  {
    OrdinalOrders(a, b);
    hide Ordinal;
  }

  // ------------------------------------------------------------------ issue

  /** The row an accepted issue leaves behind: numbered, dated, and otherwise the draft. */
  ghost predicate IssuedFrom(draft: Invoice, row: Invoice, onDate: Option<Date>, dueDate: Option<Date>) {
    && IssuedOn(row.issueDate, onDate, draft.issueDate)
    && row.dueDate.Some? && DueOn(row.dueDate.value, dueDate, draft.dueDate, row.issueDate)
    && row.status == Issued && row.reference.Some? && row.sequence.Some?
    && row == draft.(status := Issued, issueDate := row.issueDate, dueDate := row.dueDate,
                     reference := row.reference, sequence := row.sequence)
  }

  lemma {:induction false} IssueEffect(s: Store, id: Id, onDate: Option<Date>, dueDate: Option<Date>, party: seq<Finding>)
    requires Inv(s) && IssueInvoice(s, id, onDate, dueDate, party).Ok?
    ensures var s' := IssueInvoice(s, id, onDate, dueDate, party).value;
            && id in s.invoices && id in s'.invoices && IssuedFrom(s.invoices[id], s'.invoices[id], onDate, dueDate)
            && s'.invoices == s.invoices[id := s'.invoices[id]]
            && s'.audit == s.audit + [AuditEntry(Issue, "invoice", Some(id))]
            && s' == s.(invoices := s'.invoices, counters := s'.counters, audit := s'.audit)
  {
    hide *;
    IssueNumbers(s, id, onDate, dueDate, party);
    var inv := s.invoices[id];
    var issued := if onDate.Some? then onDate.value else inv.issueDate;
    DueIs(inv, issued, dueDate);
    NumberedRow(s, id, issued, EffectiveDueDate(inv, issued, dueDate).value);
    DatedFrom(inv, IssueInvoice(s, id, onDate, dueDate, party).value.invoices[id], onDate, dueDate, issued,
              EffectiveDueDate(inv, issued, dueDate).value);
  }

  lemma {:induction false} DatedFrom(draft: Invoice, row: Invoice, onDate: Option<Date>, dueDate: Option<Date>, issued: Date, due: Date)
    requires issued == (if onDate.Some? then onDate.value else draft.issueDate) && DueOn(due, dueDate, draft.dueDate, issued)
    requires row.reference.Some? && row.sequence.Some?
    requires row == draft.(status := Issued, issueDate := issued, dueDate := Some(due), reference := row.reference, sequence := row.sequence)
    ensures IssuedFrom(draft, row, onDate, dueDate)
  {
    hide DueOn;
  }

  lemma {:induction false} IssueNumbers(s: Store, id: Id, onDate: Option<Date>, dueDate: Option<Date>, party: seq<Finding>)
    requires IssueInvoice(s, id, onDate, dueDate, party).Ok?
    ensures id in s.invoices && s.invoices[id].status == Draft
    ensures s.invoices[id].companyId in s.companies && s.invoices[id].clientId in s.clients
    ensures var issued := if onDate.Some? then onDate.value else s.invoices[id].issueDate;
            var due := EffectiveDueDate(s.invoices[id], issued, dueDate);
            due.Some? && IssueInvoice(s, id, onDate, dueDate, party) == NumberInvoice(s, id, issued, due.value)
  {
    hide NumberInvoice, EffectiveDueDate, IssueFindings;
  }

  lemma {:induction false} NumberedRow(s: Store, id: Id, issued: Date, due: Date)
    requires Inv(s) && id in s.invoices && s.invoices[id].companyId in s.companies && s.invoices[id].clientId in s.clients
    requires NumberInvoice(s, id, issued, due).Ok?
    ensures var s', draft := NumberInvoice(s, id, issued, due).value, s.invoices[id];
            && id in s'.invoices && s'.invoices == s.invoices[id := s'.invoices[id]]
            && s'.invoices[id].reference.Some? && s'.invoices[id].sequence.Some?
            && s'.invoices[id] == draft.(status := Issued, issueDate := issued, dueDate := Some(due),
                                         reference := s'.invoices[id].reference, sequence := s'.invoices[id].sequence)
            && s'.audit == s.audit + [AuditEntry(Issue, "invoice", Some(id))]
            && s' == s.(invoices := s'.invoices, counters := s'.counters, audit := s'.audit)
  {
    InvoiceFacts(s, id);
    hide Inv, TotalsOf, DisplayReference, InvoiceNumbers, InvoiceKeyTaken, BucketScope, InvoicesOk, PaymentsOk, NotesOk, SeriesOk, PaidMatches,
         SoundLines, LifecycleOk, PartiesExist;
  }

  /** The reference of the row reads back as the initials of the client, the month and year of the issue date, and
      the next number of the client in that month. */
  lemma {:induction false} IssueReference(s: Store, id: Id, onDate: Option<Date>, dueDate: Option<Date>, party: seq<Finding>)
    requires Inv(s) && IssueInvoice(s, id, onDate, dueDate, party).Ok?
    ensures id in s.invoices && s.invoices[id].companyId in s.companies && s.invoices[id].clientId in s.clients
    ensures var s', draft := IssueInvoice(s, id, onDate, dueDate, party).value, s.invoices[id];
            id in s'.invoices && s'.invoices[id].reference.Some? &&
            var row := s'.invoices[id];
            var bucket := Scope(draft.companyId, MonthlyBucket(draft.clientId, row.issueDate.year, row.issueDate.month));
            && DecodeDisplay(s.companies[draft.companyId].prefix, row.reference.value)
               == Some(DisplayParts(ClientInitials(s.clients[draft.clientId].name), row.issueDate.month,
                                    CounterOf(s.counters, bucket) + 1, row.issueDate.year))
            && CounterOf(s'.counters, bucket) == CounterOf(s.counters, bucket) + 1
  {
    hide *;
    IssueNumbers(s, id, onDate, dueDate, party);
    IssueEffect(s, id, onDate, dueDate, party);
    var inv := s.invoices[id];
    var issued := if onDate.Some? then onDate.value else inv.issueDate;
    NumberedParts(s, id, issued, EffectiveDueDate(inv, issued, dueDate).value);
    BucketCounter(s.counters, inv, issued);
    PartsRead(s, inv, IssueInvoice(s, id, onDate, dueDate, party).value.invoices[id], issued);
  }

  lemma {:induction false} PartsRead(s: Store, inv: Invoice, row: Invoice, issued: Date)
    requires inv.clientId in s.clients && inv.companyId in s.companies && row.companyId == inv.companyId
    requires PartsOf(s.companies, row) == Some(NextParts(s, inv, issued))
    ensures row.reference.Some?
    ensures BucketScope(inv, issued) == Scope(inv.companyId, MonthlyBucket(inv.clientId, issued.year, issued.month))
    ensures DecodeDisplay(s.companies[inv.companyId].prefix, row.reference.value)
         == Some(DisplayParts(ClientInitials(s.clients[inv.clientId].name), issued.month, CounterOf(s.counters, BucketScope(inv, issued)) + 1, issued.year))
  {
    hide DecodeDisplay, ClientInitials, MonthlyBucket;
  }

  /** A line the gate lets through: nothing but the standard category is taxed; what is not subject to VAT is refused;
      reverse charge crosses a border and intra-Community supply goes to a member state. */
  ghost predicate Permitted(line: InvoiceLine, company: Company, client: Client) {
    && (line.category != Standard ==> line.rate <= 0.0)
    && line.category != NotSubject
    && (line.category == ReverseCharge ==>
          Upper(client.countryCode) != if company.countryCode == "" then "BE" else Upper(company.countryCode))
    && (line.category == IntraEu ==> IsEuMember(Upper(client.countryCode)))
  }

  lemma {:induction false} PermittedIs(line: InvoiceLine, company: Company, client: Client)
    ensures LineLawful(line, PartiesOf(company, client)) <==> Permitted(line, company, client)
  {
    hide IsEuMember, Blank;
    assert Upper("") == "";
  }

  lemma {:induction false} AllPermitted(lines: seq<InvoiceLine>, company: Company, client: Client)
    ensures (forall line :: line in lines ==> LineLawful(line, PartiesOf(company, client)))
        <==> forall line :: line in lines ==> Permitted(line, company, client)
  {
    hide *;
    forall line | line in lines ensures LineLawful(line, PartiesOf(company, client)) <==> Permitted(line, company, client) {
      PermittedIs(line, company, client);
    }
  }

  /** Which issues are accepted: those of a draft whose parties pass, whose lines are permitted, that has a due date
      not before its issue date, from the year 1000 on, and whose reference no other client's invoice carries. */
  lemma {:induction false} IssueAcceptedIff(s: Store, id: Id, onDate: Option<Date>, dueDate: Option<Date>, party: seq<Finding>)
    requires Inv(s) && RefsOk(s)
    ensures IssueInvoice(s, id, onDate, dueDate, party).Ok?
        <==> && id in s.invoices && s.invoices[id].status == Draft
             && s.invoices[id].companyId in s.companies && s.invoices[id].clientId in s.clients
             && BlockingOf(party) == []
             && var inv := s.invoices[id];
                var issued := if onDate.Some? then onDate.value else inv.issueDate;
                && (forall line :: line in inv.lines ==> Permitted(line, s.companies[inv.companyId], s.clients[inv.clientId]))
                && (exists due: Date :: DueOn(due, dueDate, inv.dueDate, issued) && Ordinal(issued) <= Ordinal(due))
                && issued.year >= 1000
                && !NamesakeHolds(s, id, issued)
  {
    hide *;
    PartiesThere(s, id);
    if id in s.invoices && s.invoices[id].status == Draft {
      var inv := s.invoices[id];
      var issued := if onDate.Some? then onDate.value else inv.issueDate;
      AllPermitted(inv.lines, s.companies[inv.companyId], s.clients[inv.clientId]);
      DueExistsIff(inv, issued, dueDate);
      var due := EffectiveDueDate(inv, issued, dueDate);
      if due.Some? {
        OrdinalOrders(due.value, issued);
        GateIs(s, inv, issued, due.value, party);
        NumberedIff(s, id, issued, due.value);
      }
      IssueAfterGate(s, id, onDate, dueDate, party);
    } else {
      NoDraftNoIssue(s, id, onDate, dueDate, party);
    }
  }

  lemma {:induction false} NoDraftNoIssue(s: Store, id: Id, onDate: Option<Date>, dueDate: Option<Date>, party: seq<Finding>)
    requires id !in s.invoices || s.invoices[id].status != Draft
    ensures IssueInvoice(s, id, onDate, dueDate, party).Err?
  {
  }

  lemma {:induction false} PartiesThere(s: Store, id: Id)
    requires Inv(s)
    ensures id in s.invoices ==>
      s.invoices[id].companyId in s.companies && s.invoices[id].clientId in s.clients && s.invoices[id].lines != []
  {
    if id in s.invoices {
      InvoiceFacts(s, id);
      hide Inv, TotalsFrozen, LifecycleOk, PaidMatches;
    }
  }

  lemma {:induction false} IssueAfterGate(s: Store, id: Id, onDate: Option<Date>, dueDate: Option<Date>, party: seq<Finding>)
    requires id in s.invoices && s.invoices[id].status == Draft
    requires s.invoices[id].companyId in s.companies && s.invoices[id].clientId in s.clients
    ensures var issued := if onDate.Some? then onDate.value else s.invoices[id].issueDate;
            var due := EffectiveDueDate(s.invoices[id], issued, dueDate);
            IssueInvoice(s, id, onDate, dueDate, party).Ok?
            <==> due.Some? && IssueFindings(s, s.invoices[id], issued, due.value, party) == [] && NumberInvoice(s, id, issued, due.value).Ok?
  {
    hide NumberInvoice, EffectiveDueDate, IssueFindings;
  }

  lemma {:induction false} GateIs(s: Store, inv: Invoice, issued: Date, due: Date, party: seq<Finding>)
    requires inv.companyId in s.companies && inv.clientId in s.clients && inv.lines != []
    ensures IssueFindings(s, inv, issued, due, party) == []
        <==> && BlockingOf(party) == []
             && (forall line :: line in inv.lines ==> LineLawful(line, PartiesOf(s.companies[inv.companyId], s.clients[inv.clientId])))
             && !Before(due, issued)
  {
    hide CheckedInvoice, BlockingOf, LineLawful, PartiesOf, Blank;
    GateOpensIff(party, inv.lines, PartiesOf(s.companies[inv.companyId], s.clients[inv.clientId]), issued, Some(due), Blank(inv.paymentTerms));
  }

  lemma {:induction false} DueExistsIff(inv: Invoice, issued: Date, chosen: Option<Date>)
    ensures var due := EffectiveDueDate(inv, issued, chosen);
            (exists d: Date :: DueOn(d, chosen, inv.dueDate, issued) && Ordinal(issued) <= Ordinal(d))
            <==> due.Some? && Ordinal(issued) <= Ordinal(due.value)
  {
    hide *;
    DueIs(inv, issued, chosen);
    var due := EffectiveDueDate(inv, issued, chosen);
    forall d: Date | DueOn(d, chosen, inv.dueDate, issued) ensures due == Some(d) {
      if due.None? {
        DueWithin(d, issued, chosen, inv.dueDate);
      } else {
        DueIsUnique(d, due.value, chosen, inv.dueDate, issued);
      }
    }
  }

  lemma {:induction false} DueWithin(d: Date, issued: Date, chosen: Option<Date>, own: Option<Date>)
    requires DueOn(d, chosen, own, issued) && chosen.None? && own.None?
    ensures Ordinal(issued) + 30 <= LAST_DAY
  {
    NextOrdinal(d);
    hide Ordinal;
  }

  lemma {:induction false} NumberedIff(s: Store, id: Id, issued: Date, due: Date)
    requires Inv(s) && RefsOk(s) && id in s.invoices && s.invoices[id].status.Draft?
    requires s.invoices[id].companyId in s.companies && s.invoices[id].clientId in s.clients
    ensures NumberInvoice(s, id, issued, due).Ok? <==> issued.year >= 1000 && !NamesakeHolds(s, id, issued)
  {
    hide *;
    if issued.year >= 1000 {
      ConstraintRefusesIff(s, id, issued, due);
      BucketCounter(s.counters, s.invoices[id], issued);
      NumberedOrTaken(s, id, issued, due);
    } else {
      YearTooEarly(s, id, issued, due);
    }
  }

  lemma {:induction false} NumberedOrTaken(s: Store, id: Id, issued: Date, due: Date)
    requires id in s.invoices && s.invoices[id].companyId in s.companies && s.invoices[id].clientId in s.clients
    requires issued.year >= 1000 && CounterOf(InvoiceNumbers(s.counters, s.invoices[id], issued), BucketScope(s.invoices[id], issued)) >= 1
    ensures NumberInvoice(s, id, issued, due).Ok? || NumberInvoice(s, id, issued, due) == Err(IntegrityError)
  {
    hide InvoiceNumbers, BucketScope, InvoiceKeyTaken, IssuedInvoice, ClientInitials;
  }

  lemma {:induction false} YearTooEarly(s: Store, id: Id, issued: Date, due: Date)
    requires id in s.invoices && s.invoices[id].companyId in s.companies && s.invoices[id].clientId in s.clients
    requires issued.year < 1000
    ensures NumberInvoice(s, id, issued, due).Err?
  {
    hide InvoiceNumbers, BucketScope, InvoiceKeyTaken, IssuedInvoice, ClientInitials;
  }
}
