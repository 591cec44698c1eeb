// core/services/reporting_service.py:512-592 and 685-777: invoice_report and client_report.
module Reports {
  import opened Common
  import opened Grouping
  import opened Money
  import opened Calendar
  import opened Store
  import opened LedgerInvariant
  import opened Periods

  /** An invoice and what has been paid on it. */
  datatype Entry = Entry(invoice: Invoice, paid: real)

  function EntriesOf(s: Store, ids: seq<Id>): (r: seq<Entry>)
    requires forall i :: 0 <= i < |ids| ==> ids[i] in s.invoices
    ensures |r| == |ids|
  {
    seq(|ids|, i requires 0 <= i < |ids| => Entry(s.invoices[ids[i]], PaidOn(s.payments, ids[i])))
  }

  /** No period means every date. */
  predicate Wanted(e: Entry, period: Option<Period>) {
    period.None? || InPeriod(e.invoice.issueDate, period.value)
  }

  predicate Selected(e: Entry, period: Option<Period>, cur: Currency) {
    Wanted(e, period) && e.invoice.currency == cur
  }

  /** Drafts and voided invoices are never money. */
  predicate Billed(inv: Invoice) {
    !inv.status.Draft? && !inv.status.Voided?
  }

  function Owed(e: Entry): real {
    Major(e.invoice.totalTtc, e.invoice.currency) - e.paid
  }

  predicate IsOverdue(e: Entry, today: Date) {
    EffectiveStatus(e.invoice, today).Overdue?
  }

  datatype Month = Month(year: int, month: int)

  function MonthOf(inv: Invoice): Month {
    Month(inv.issueDate.year, inv.issueDate.month)
  }

  // ------------------------------------------------------------------ the money of some invoices

  datatype Figures = Figures(count: nat, invoiced: int, paid: real, overdueCount: nat, overdue: real)

  const NO_FIGURES := Figures(0, 0, 0.0, 0, 0.0)

  function Plus(a: Figures, b: Figures): Figures {
    Figures(a.count + b.count, a.invoiced + b.invoiced, a.paid + b.paid, a.overdueCount + b.overdueCount, a.overdue + b.overdue)
  }

  /** What one billed invoice adds. */
  function Billing(e: Entry, today: Date): Figures {
    if IsOverdue(e, today) then Figures(1, e.invoice.totalTtc, e.paid, 1, Owed(e))
    else Figures(1, e.invoice.totalTtc, e.paid, 0, 0.0)
  }

  /** Which invoices: all of them, those of a client, or those issued in a month. */
  datatype Group = All | OfClient(client: Id) | InMonth(month: Month)

  predicate Belongs(inv: Invoice, g: Group) {
    match g
    case All => true
    case OfClient(client) => inv.clientId == client
    case InMonth(month) => MonthOf(inv) == month
  }

  predicate Billable(e: Entry, period: Option<Period>, cur: Currency) {
    Selected(e, period, cur) && Billed(e.invoice)
  }

  /** The specification of every amount in both reports. */
  function FiguresOf(es: seq<Entry>, period: Option<Period>, cur: Currency, today: Date, g: Group): Figures {
    if es == [] then NO_FIGURES
    else
      var e := es[|es| - 1];
      Plus(FiguresOf(es[..|es| - 1], period, cur, today, g),
           if Billable(e, period, cur) && Belongs(e.invoice, g) then Billing(e, today) else NO_FIGURES)
  }

  /** How many invoices of the period are in the currency, and how many are not. */
  function CountIn(es: seq<Entry>, period: Option<Period>, cur: Currency, inCurrency: bool): nat {
    if es == [] then 0
    else
      var e := es[|es| - 1];
      CountIn(es[..|es| - 1], period, cur, inCurrency)
      + if Wanted(e, period) && (e.invoice.currency == cur) == inCurrency then 1 else 0
  }

  datatype StatusBucket = StatusBucket(count: nat, total: int)

  const NO_BUCKET := StatusBucket(0, 0)

  /** Drafts are counted but not summed. */
  function BucketOf(es: seq<Entry>, period: Option<Period>, cur: Currency, today: Date, status: InvoiceStatus): StatusBucket {
    if es == [] then NO_BUCKET
    else
      var e, before := es[|es| - 1], BucketOf(es[..|es| - 1], period, cur, today, status);
      if Selected(e, period, cur) && EffectiveStatus(e.invoice, today) == status
      then StatusBucket(before.count + 1, before.total + if e.invoice.status.Draft? then 0 else e.invoice.totalTtc)
      else before
  }

  // ------------------------------------------------------------------ a dict of figures

  /** A Python dict: its keys in insertion order, and its values. */
  datatype Table = Table(order: seq<Group>, at: map<Group, Figures>)

  ghost predicate TableOk(t: Table) {
    && Distinct(t.order)
    && (forall g :: g in t.order <==> g in t.at)
  }

  function FiguresAt(t: Table, g: Group): Figures {
    if g in t.at then t.at[g] else NO_FIGURES
  }

  function Put(t: Table, g: Group, f: Figures): Table {
    Table(if g in t.at then t.order else t.order + [g], t.at[g := Plus(FiguresAt(t, g), f)])
  }

  function TotalOver(order: seq<Group>, t: Table): Figures {
    if order == [] then NO_FIGURES
    else Plus(TotalOver(order[..|order| - 1], t), FiguresAt(t, order[|order| - 1]))
  }

  lemma {:induction false} TotalUnmoved(order: seq<Group>, t: Table, g: Group, f: Figures)
    requires forall i :: 0 <= i < |order| ==> order[i] != g
    ensures TotalOver(order, Put(t, g, f)) == TotalOver(order, t)
  {
    hide Plus;
    if order != [] {
      TotalUnmoved(order[..|order| - 1], t, g, f);
    }
  }

  lemma {:induction false} TotalMoved(order: seq<Group>, t: Table, j: nat, f: Figures)
    requires Distinct(order) && j < |order|
    ensures TotalOver(order, Put(t, order[j], f)) == Plus(TotalOver(order, t), f)
  {
    var n := |order| - 1;
    if j == n {
      TotalUnmoved(order[..n], t, order[j], f);
    } else {
      TotalMoved(order[..n], t, j, f);
      assert order[n] != order[j];
    }
  }

  lemma {:induction false} PutKeepsOk(t: Table, g: Group, f: Figures)
    requires TableOk(t)
    ensures TableOk(Put(t, g, f))
  {
    hide FiguresAt, Plus;
    var after := Put(t, g, f);
    forall h ensures h in after.order <==> h in after.at {
      assert h in after.order <==> h in t.order || h == g;
    }
  }

  lemma {:induction false} PutTotal(t: Table, g: Group, f: Figures)
    requires TableOk(t)
    ensures TotalOver(Put(t, g, f).order, Put(t, g, f)) == Plus(TotalOver(t.order, t), f)
  {
    var after := Put(t, g, f);
    if g in t.at {
      assert g in t.order && Distinct(t.order) && after.order == t.order;
      var j :| 0 <= j < |t.order| && t.order[j] == g;
      hide TableOk;
      TotalMoved(t.order, t, j, f);
    } else {
      assert g !in t.order && FiguresAt(t, g) == NO_FIGURES && FiguresAt(after, g) == Plus(NO_FIGURES, f);
      hide TableOk;
      assert after.order[..|t.order|] == t.order;
      TotalUnmoved(t.order, t, g, f);
    }
  }

  lemma {:induction false} PutEffect(t: Table, g: Group, f: Figures)
    requires TableOk(t)
    ensures TableOk(Put(t, g, f))
    ensures forall h :: FiguresAt(Put(t, g, f), h) == if h == g then Plus(FiguresAt(t, h), f) else FiguresAt(t, h)
    ensures TotalOver(Put(t, g, f).order, Put(t, g, f)) == Plus(TotalOver(t.order, t), f)
  {
    PutKeepsOk(t, g, f);
    PutTotal(t, g, f);
    hide TableOk, TotalOver;
  }

  /** Grouping by client or by month. */
  datatype Kind = ByClient | ByMonth

  function KeyFor(kind: Kind, inv: Invoice): Group {
    if kind.ByClient? then OfClient(inv.clientId) else InMonth(MonthOf(inv))
  }

  predicate KeyOfKind(kind: Kind, g: Group) {
    if kind.ByClient? then g.OfClient? else g.InMonth?
  }

  /** The table groups the invoices seen so far: each key's figures are those of its invoices, and
      together they are everything. */
  ghost predicate Groups(t: Table, kind: Kind, es: seq<Entry>, period: Option<Period>, cur: Currency, today: Date) {
    && TableOk(t)
    && (forall g :: g in t.at ==> KeyOfKind(kind, g))
    && (forall g :: KeyOfKind(kind, g) ==> FiguresAt(t, g) == FiguresOf(es, period, cur, today, g))
    && TotalOver(t.order, t) == FiguresOf(es, period, cur, today, All)
  }

  lemma {:induction false} FiguresSnoc(es: seq<Entry>, e: Entry, period: Option<Period>, cur: Currency, today: Date, g: Group)
    ensures FiguresOf(es + [e], period, cur, today, g)
         == Plus(FiguresOf(es, period, cur, today, g),
                 if Billable(e, period, cur) && Belongs(e.invoice, g) then Billing(e, today) else NO_FIGURES)
  {
    assert (es + [e])[..|es|] == es;
  }

  lemma {:induction false} GroupsNext(t: Table, kind: Kind, es: seq<Entry>, e: Entry, period: Option<Period>, cur: Currency, today: Date)
    requires Groups(t, kind, es, period, cur, today)
    ensures Groups(if Billable(e, period, cur) then Put(t, KeyFor(kind, e.invoice), Billing(e, today)) else t,
                   kind, es + [e], period, cur, today)
  {
    hide TableOk, FiguresAt, Put, TotalOver, FiguresOf, Billing, Billable, Plus;
    var key := KeyFor(kind, e.invoice);
    var after := if Billable(e, period, cur) then Put(t, key, Billing(e, today)) else t;
    PutEffect(t, key, Billing(e, today));
    KeysGrow(t, key, Billing(e, today));
    FiguresSnoc(es, e, period, cur, today, All);
    PlusNothing(FiguresOf(es, period, cur, today, All));
    forall g | KeyOfKind(kind, g) ensures FiguresAt(after, g) == FiguresOf(es + [e], period, cur, today, g) {
      FiguresSnoc(es, e, period, cur, today, g);
      PlusNothing(FiguresOf(es, period, cur, today, g));
      assert Belongs(e.invoice, g) <==> g == key;
    }
  }

  lemma {:induction false} KeysGrow(t: Table, g: Group, f: Figures)
    ensures Put(t, g, f).at.Keys == t.at.Keys + {g}
  {
  }

  // ------------------------------------------------------------------ the two reports

  datatype MonthRow = MonthRow(month: Month, total: int, count: nat)

  datatype InvoiceReport = InvoiceReport(
    statuses: map<InvoiceStatus, StatusBucket>, months: seq<MonthRow>, invoiceCount: nat, invoicedTotal: int, paidTotal: int,
    outstandingTotal: int, draftCount: nat, overdueCount: nat, overdueTotal: int, skipped: nat)

  datatype ClientRow = ClientRow(
    client: Id, invoiceCount: nat, invoicedTotal: int, paidTotal: int, outstandingTotal: int, overdueCount: nat, overdueTotal: int)

  datatype ClientReport = ClientReport(
    clients: seq<ClientRow>, invoicedTotal: int, paidTotal: int, outstandingTotal: int, skipped: nat)

  function Outstanding(f: Figures, cur: Currency): int {
    Quantize(Major(f.invoiced, cur) - f.paid, cur)
  }

  function StatusAt(statuses: map<InvoiceStatus, StatusBucket>, status: InvoiceStatus): StatusBucket {
    if status in statuses then statuses[status] else NO_BUCKET
  }

  function MonthRows(t: Table): (r: seq<MonthRow>)
    ensures |r| == |t.order|
  {
    seq(|t.order|, i requires 0 <= i < |t.order| =>
      MonthRow(if t.order[i].InMonth? then t.order[i].month else Month(0, 0),
               FiguresAt(t, t.order[i]).invoiced, FiguresAt(t, t.order[i]).count))
  }

  function ClientRowOf(g: Group, f: Figures, cur: Currency): ClientRow {
    ClientRow(if g.OfClient? then g.client else "", f.count, f.invoiced, Quantize(f.paid, cur), Outstanding(f, cur),
              f.overdueCount, Quantize(f.overdue, cur))
  }

  function ClientRows(t: Table, cur: Currency): (r: seq<ClientRow>)
    ensures |r| == |t.order|
  {
    seq(|t.order|, i requires 0 <= i < |t.order| => ClientRowOf(t.order[i], FiguresAt(t, t.order[i]), cur))
  }

  /** Everything an invoice report says. */
  ghost predicate IsInvoiceReport(r: InvoiceReport, es: seq<Entry>, period: Option<Period>, cur: Currency, today: Date) {
    var all := FiguresOf(es, period, cur, today, All);
    && (forall status :: StatusAt(r.statuses, status) == BucketOf(es, period, cur, today, status))
    && (exists t :: Groups(t, ByMonth, es, period, cur, today) && r.months == MonthRows(t))
    && r.invoiceCount == CountIn(es, period, cur, true) && r.skipped == CountIn(es, period, cur, false)
    && r.invoicedTotal == all.invoiced && r.paidTotal == Quantize(all.paid, cur)
    && r.outstandingTotal == Outstanding(all, cur)
    && r.draftCount == BucketOf(es, period, cur, today, Draft).count
    && r.overdueCount == all.overdueCount && r.overdueTotal == Quantize(all.overdue, cur)
  }

  function EachInvoiced(rows: seq<ClientRow>): (r: seq<int>)
    ensures |r| == |rows|
  {
    seq(|rows|, i requires 0 <= i < |rows| => rows[i].invoicedTotal)
  }

  function EachPaid(rows: seq<ClientRow>): (r: seq<int>)
    ensures |r| == |rows|
  {
    seq(|rows|, i requires 0 <= i < |rows| => rows[i].paidTotal)
  }

  function EachOutstanding(rows: seq<ClientRow>): (r: seq<int>)
    ensures |r| == |rows|
  {
    seq(|rows|, i requires 0 <= i < |rows| => rows[i].outstandingTotal)
  }

  function MonthTotals(rows: seq<MonthRow>): (r: seq<int>)
    ensures |r| == |rows|
  {
    seq(|rows|, i requires 0 <= i < |rows| => rows[i].total)
  }

  /** Everything a client report says: the rows are rounded each for itself, and then summed. */
  ghost predicate IsClientReport(r: ClientReport, es: seq<Entry>, period: Option<Period>, cur: Currency, today: Date) {
    && (exists t :: Groups(t, ByClient, es, period, cur, today) && r.clients == ClientRows(t, cur))
    && r.invoicedTotal == SumInt(EachInvoiced(r.clients))
    && r.paidTotal == SumInt(EachPaid(r.clients))
    && r.outstandingTotal == SumInt(EachOutstanding(r.clients))
    && r.skipped == CountIn(es, period, cur, false)
  }

  // ------------------------------------------------------------------ invoice_report

  /** The accumulators of the loop. */
  datatype Progress = Progress(
    statuses: map<InvoiceStatus, StatusBucket>, months: Table, all: Figures, count: nat, skipped: nat, drafts: nat)

  ghost predicate ProgressOk(a: Progress, es: seq<Entry>, period: Option<Period>, cur: Currency, today: Date) {
    && (forall status :: StatusAt(a.statuses, status) == BucketOf(es, period, cur, today, status))
    && Groups(a.months, ByMonth, es, period, cur, today)
    && a.all == FiguresOf(es, period, cur, today, All)
    && a.count == CountIn(es, period, cur, true) && a.skipped == CountIn(es, period, cur, false)
    && a.drafts == BucketOf(es, period, cur, today, Draft).count
  }

  /** One pass of the loop body. */
  function Advance(a: Progress, e: Entry, period: Option<Period>, cur: Currency, today: Date): Progress {
    if !Wanted(e, period) then a
    else if e.invoice.currency != cur then a.(skipped := a.skipped + 1)
    else
      var status, inv := EffectiveStatus(e.invoice, today), e.invoice;
      var slot := StatusAt(a.statuses, status);
      var counted := a.(count := a.count + 1);
      if inv.status.Draft? then
        counted.(statuses := a.statuses[status := slot.(count := slot.count + 1)], drafts := a.drafts + 1)
      else
        var summed := counted.(statuses := a.statuses[status := StatusBucket(slot.count + 1, slot.total + inv.totalTtc)]);
        if inv.status.Voided? then summed
        else summed.(all := Plus(a.all, Billing(e, today)), months := Put(a.months, InMonth(MonthOf(inv)), Billing(e, today)))
  }

  lemma {:induction false} BucketSnoc(es: seq<Entry>, e: Entry, period: Option<Period>, cur: Currency, today: Date, status: InvoiceStatus)
    ensures var before := BucketOf(es, period, cur, today, status);
            BucketOf(es + [e], period, cur, today, status) ==
              if Selected(e, period, cur) && EffectiveStatus(e.invoice, today) == status
              then StatusBucket(before.count + 1, before.total + if e.invoice.status.Draft? then 0 else e.invoice.totalTtc)
              else before
  {
    assert (es + [e])[..|es|] == es;
    hide InPeriod, EffectiveStatus;
  }

  lemma {:induction false} AdvanceBucket(a: Progress, es: seq<Entry>, e: Entry, period: Option<Period>, cur: Currency, today: Date,
                                         status: InvoiceStatus)
    requires StatusAt(a.statuses, status) == BucketOf(es, period, cur, today, status)
    ensures StatusAt(Advance(a, e, period, cur, today).statuses, status) == BucketOf(es + [e], period, cur, today, status)
  {
    hide Put, Billing, Plus, InPeriod, EffectiveStatus, BucketOf;
    BucketSnoc(es, e, period, cur, today, status);
  }

  lemma {:induction false} AdvanceCounts(a: Progress, es: seq<Entry>, e: Entry, period: Option<Period>, cur: Currency, today: Date)
    requires a.drafts == BucketOf(es, period, cur, today, Draft).count
    requires a.count == CountIn(es, period, cur, true) && a.skipped == CountIn(es, period, cur, false)
    ensures var b := Advance(a, e, period, cur, today);
            && b.drafts == BucketOf(es + [e], period, cur, today, Draft).count
            && b.count == CountIn(es + [e], period, cur, true) && b.skipped == CountIn(es + [e], period, cur, false)
  {
    assert (es + [e])[..|es|] == es;
    hide Put, Billing, Plus, InPeriod, StatusAt;
  }

  lemma {:induction false} AdvanceMoney(a: Progress, e: Entry, period: Option<Period>, cur: Currency, today: Date)
    ensures var b := Advance(a, e, period, cur, today);
            && b.all == Plus(a.all, if Billable(e, period, cur) && Belongs(e.invoice, All) then Billing(e, today) else NO_FIGURES)
            && b.months == if Billable(e, period, cur) then Put(a.months, KeyFor(ByMonth, e.invoice), Billing(e, today)) else a.months
  {
    hide Put, Billing, InPeriod, StatusAt, EffectiveStatus;
    PlusNothing(a.all);
  }

  lemma {:induction false} AdvanceOk(a: Progress, es: seq<Entry>, e: Entry, period: Option<Period>, cur: Currency, today: Date)
    requires ProgressOk(a, es, period, cur, today)
    ensures ProgressOk(Advance(a, e, period, cur, today), es + [e], period, cur, today)
  {
    hide Put, Billing, Groups, BucketOf, CountIn, FiguresOf, StatusAt, Advance, Billable, Plus;
    AdvanceCounts(a, es, e, period, cur, today);
    AdvanceMoney(a, e, period, cur, today);
    GroupsNext(a.months, ByMonth, es, e, period, cur, today);
    FiguresSnoc(es, e, period, cur, today, All);
    forall status ensures StatusAt(Advance(a, e, period, cur, today).statuses, status) == BucketOf(es + [e], period, cur, today, status) {
      AdvanceBucket(a, es, e, period, cur, today, status);
    }
  }

  lemma {:induction false} PlusNothing(f: Figures)
    ensures Plus(f, NO_FIGURES) == f
  {
  }

  method MakeInvoiceReport(es: seq<Entry>, period: Option<Period>, cur: Currency, today: Date) returns (r: InvoiceReport)
    ensures IsInvoiceReport(r, es, period, cur, today)
  {
    hide Advance, ProgressOk, Groups, Quantize, Major;
    var a := Progress(map[], Table([], map[]), NO_FIGURES, 0, 0, 0);
    NoProgress(a, period, cur, today);
    for i := 0 to |es|
      invariant ProgressOk(a, es[..i], period, cur, today)
    {
      AdvanceOk(a, es[..i], es[i], period, cur, today);
      a := Advance(a, es[i], period, cur, today);
      assert es[..i + 1] == es[..i] + [es[i]];
    }
    assert es[..|es|] == es;
    r := InvoiceReport(a.statuses, MonthRows(a.months), a.count, a.all.invoiced, Quantize(a.all.paid, cur),
                       Outstanding(a.all, cur), a.drafts, a.all.overdueCount, Quantize(a.all.overdue, cur), a.skipped);
    ProgressMeans(a, es, period, cur, today);
  }

  lemma {:induction false} NoProgress(a: Progress, period: Option<Period>, cur: Currency, today: Date)
    requires a == Progress(map[], Table([], map[]), NO_FIGURES, 0, 0, 0)
    ensures ProgressOk(a, [], period, cur, today)
  {
  }

  lemma {:induction false} ProgressMeans(a: Progress, es: seq<Entry>, period: Option<Period>, cur: Currency, today: Date)
    requires ProgressOk(a, es, period, cur, today)
    ensures (forall status :: StatusAt(a.statuses, status) == BucketOf(es, period, cur, today, status))
    ensures Groups(a.months, ByMonth, es, period, cur, today)
    ensures a.all == FiguresOf(es, period, cur, today, All)
    ensures a.count == CountIn(es, period, cur, true) && a.skipped == CountIn(es, period, cur, false)
    ensures a.drafts == BucketOf(es, period, cur, today, Draft).count
  {
    hide Groups, FiguresOf, BucketOf, CountIn;
  }

  // ------------------------------------------------------------------ client_report

  method MakeClientReport(es: seq<Entry>, period: Option<Period>, cur: Currency, today: Date) returns (r: ClientReport)
    ensures IsClientReport(r, es, period, cur, today)
  {
    hide Groups, InPeriod, Quantize, Major, Put, Billing;
    var t, skipped := Table([], map[]), 0;
    NoGroups(t, period, cur, today);
    for i := 0 to |es|
      invariant Groups(t, ByClient, es[..i], period, cur, today)
      invariant skipped == CountIn(es[..i], period, cur, false)
    {
      var e := es[i];
      assert es[..i + 1] == es[..i] + [e] && es[..i + 1][..i] == es[..i];
      GroupsNext(t, ByClient, es[..i], e, period, cur, today);
      if Wanted(e, period) {
        if e.invoice.currency != cur {
          skipped := skipped + 1;
        } else if !e.invoice.status.Draft? && !e.invoice.status.Voided? {
          t := Put(t, OfClient(e.invoice.clientId), Billing(e, today));
        }
      }
    }
    assert es[..|es|] == es;
    var rows := ClientRows(t, cur);
    r := ClientReport(rows, SumInt(EachInvoiced(rows)), SumInt(EachPaid(rows)), SumInt(EachOutstanding(rows)), skipped);
  }

  lemma {:induction false} NoGroups(t: Table, period: Option<Period>, cur: Currency, today: Date)
    requires t == Table([], map[])
    ensures Groups(t, ByClient, [], period, cur, today)
  {
  }

  // ------------------------------------------------------------------ the service calls

  /** `parse_period(period) if period else (None, None)`. */
  function Requested(period: Option<string>): Result<Option<Period>> {
    if period.None? || period.value == "" then Ok(None)
    else match ParsePeriod(period.value)
      case Err(e) => Err(e)
      case Ok(p) => Ok(Some(p))
  }

  lemma {:induction false} ListedExist(s: Store, companyId: Id, ids: seq<Id>)
    requires Lists(ids, InvoicesOf(s, companyId))
    ensures forall i :: 0 <= i < |ids| ==> ids[i] in s.invoices
  {
    assert forall i :: 0 <= i < |ids| ==> ids[i] in ids;
  }

  ghost function CompanyEntries(s: Store, companyId: Id, ids: seq<Id>): seq<Entry>
    requires Lists(ids, InvoicesOf(s, companyId))
  {
    ListedExist(s, companyId, ids);
    EntriesOf(s, ids)
  }

  /** Both services read one snapshot: the company's invoices, in the order the repository lists them, and
      their payments. */
  method ReportInvoices(s: Store, companyId: Id, period: Option<string>, ids: seq<Id>, today: Date) returns (r: Result<InvoiceReport>)
    requires Lists(ids, InvoicesOf(s, companyId))
    ensures match Requested(period)
      case Err(e) => r == Err(e)
      case Ok(p) =>
        if companyId !in s.companies then r == Err(NotFound)
        else r.Ok? && IsInvoiceReport(r.value, CompanyEntries(s, companyId, ids), p, s.companies[companyId].defaultCurrency, today)
  {
    hide IsInvoiceReport, ParsePeriod, PaidOn;
    ListedExist(s, companyId, ids);
    var requested := Requested(period);
    if requested.Err? {
      return Err(requested.error);
    }
    if companyId !in s.companies {
      return Err(NotFound);
    }
    var report := MakeInvoiceReport(EntriesOf(s, ids), requested.value, s.companies[companyId].defaultCurrency, today);
    r := Ok(report);
  }

  method ReportClients(s: Store, companyId: Id, period: Option<string>, ids: seq<Id>, today: Date) returns (r: Result<ClientReport>)
    requires Lists(ids, InvoicesOf(s, companyId))
    ensures match Requested(period)
      case Err(e) => r == Err(e)
      case Ok(p) =>
        if companyId !in s.companies then r == Err(NotFound)
        else r.Ok? && IsClientReport(r.value, CompanyEntries(s, companyId, ids), p, s.companies[companyId].defaultCurrency, today)
  {
    hide IsClientReport, ParsePeriod, PaidOn;
    ListedExist(s, companyId, ids);
    var requested := Requested(period);
    if requested.Err? {
      return Err(requested.error);
    }
    if companyId !in s.companies {
      return Err(NotFound);
    }
    var report := MakeClientReport(EntriesOf(s, ids), requested.value, s.companies[companyId].defaultCurrency, today);
    r := Ok(report);
  }

  // ------------------------------------------------------------------ the reports reconcile

  lemma {:induction false} InvoicedOver(order: seq<Group>, t: Table, values: seq<int>)
    requires |values| == |order| && forall i :: 0 <= i < |order| ==> values[i] == FiguresAt(t, order[i]).invoiced
    ensures SumInt(values) == TotalOver(order, t).invoiced
  {
    if order != [] {
      InvoicedOver(order[..|order| - 1], t, values[..|order| - 1]);
    }
  }

  lemma {:induction false} OwedOver(order: seq<Group>, t: Table, cur: Currency, owed: seq<real>, paid: seq<real>)
    requires |owed| == |paid| == |order|
    requires forall i :: 0 <= i < |order| ==>
      owed[i] == Major(FiguresAt(t, order[i]).invoiced, cur) - FiguresAt(t, order[i]).paid && paid[i] == FiguresAt(t, order[i]).paid
    ensures Sum(owed) == Major(TotalOver(order, t).invoiced, cur) - TotalOver(order, t).paid
    ensures Sum(paid) == TotalOver(order, t).paid
  {
    if order != [] {
      var n := |order| - 1;
      OwedOver(order[..n], t, cur, owed[..n], paid[..n]);
    }
  }

  lemma {:induction false} MonthsAddUp(ir: InvoiceReport, es: seq<Entry>, period: Option<Period>, cur: Currency, today: Date)
    requires IsInvoiceReport(ir, es, period, cur, today)
    ensures SumInt(MonthTotals(ir.months)) == FiguresOf(es, period, cur, today, All).invoiced
  {
    hide StatusAt, BucketOf, CountIn, FiguresOf, Quantize, Major, TableOk, TotalOver;
    var m :| Groups(m, ByMonth, es, period, cur, today) && ir.months == MonthRows(m);
    InvoicedOver(m.order, m, MonthTotals(ir.months));
  }

  function OwedEach(t: Table, cur: Currency): (r: seq<real>)
    ensures |r| == |t.order|
  {
    seq(|t.order|, i requires 0 <= i < |t.order| => Major(FiguresAt(t, t.order[i]).invoiced, cur) - FiguresAt(t, t.order[i]).paid)
  }

  function PaidEach(t: Table): (r: seq<real>)
    ensures |r| == |t.order|
  {
    seq(|t.order|, i requires 0 <= i < |t.order| => FiguresAt(t, t.order[i]).paid)
  }

  lemma {:induction false} RowColumns(t: Table, cur: Currency)
    ensures EachOutstanding(ClientRows(t, cur)) == Quantizes(OwedEach(t, cur), cur)
    ensures EachPaid(ClientRows(t, cur)) == Quantizes(PaidEach(t), cur)
    ensures SumInt(EachInvoiced(ClientRows(t, cur))) == TotalOver(t.order, t).invoiced
  {
    hide Quantize, Major, FiguresAt, TotalOver;
    InvoicedOver(t.order, t, EachInvoiced(ClientRows(t, cur)));
  }

  lemma {:induction false} RowsAddUp(t: Table, cur: Currency)
    ensures var rows, all, k := ClientRows(t, cur), TotalOver(t.order, t), |t.order|;
            && SumInt(EachInvoiced(rows)) == all.invoiced
            && -(k + 1) <= 2 * (SumInt(EachPaid(rows)) - Quantize(all.paid, cur)) <= k + 1
            && -(k + 1) <= 2 * (SumInt(EachOutstanding(rows)) - Outstanding(all, cur)) <= k + 1
  {
    RowColumns(t, cur);
    hide Quantize, Major, TotalOver, FiguresAt, EachOutstanding, EachPaid, EachInvoiced, Quantizes, ClientRows;
    OwedOver(t.order, t, cur, OwedEach(t, cur), PaidEach(t));
    hide OwedEach, PaidEach;
    QuantizesDrift(OwedEach(t, cur), cur);
    QuantizesDrift(PaidEach(t), cur);
  }

  lemma {:induction false} ClientsAddUp(cr: ClientReport, es: seq<Entry>, period: Option<Period>, cur: Currency, today: Date)
    requires IsClientReport(cr, es, period, cur, today)
    ensures var k, all := |cr.clients|, FiguresOf(es, period, cur, today, All);
            && cr.invoicedTotal == all.invoiced
            && -(k + 1) <= 2 * (cr.paidTotal - Quantize(all.paid, cur)) <= k + 1
            && -(k + 1) <= 2 * (cr.outstandingTotal - Outstanding(all, cur)) <= k + 1
  {
    hide CountIn, FiguresOf, Quantize, Outstanding, TableOk, TotalOver, FiguresAt, EachInvoiced, EachPaid, EachOutstanding;
    var t :| Groups(t, ByClient, es, period, cur, today) && cr.clients == ClientRows(t, cur);
    RowsAddUp(t, cur);
    hide ClientRows;
  }

  /** The two reports of the same invoices give the same invoiced total, which is also the sum of the
      months. Their paid and outstanding totals can drift: the client report sums k rounded rows,
      the invoice report rounds once. */
  lemma {:induction false} ReportsReconcile(ir: InvoiceReport, cr: ClientReport, es: seq<Entry>, period: Option<Period>,
                                            cur: Currency, today: Date)
    requires IsInvoiceReport(ir, es, period, cur, today) && IsClientReport(cr, es, period, cur, today)
    ensures ir.invoicedTotal == cr.invoicedTotal == SumInt(MonthTotals(ir.months))
    ensures ir.skipped == cr.skipped
    ensures var k := |cr.clients|;
            && -(k + 1) <= 2 * (cr.paidTotal - ir.paidTotal) <= k + 1
            && -(k + 1) <= 2 * (cr.outstandingTotal - ir.outstandingTotal) <= k + 1
  {
    MonthsAddUp(ir, es, period, cur, today);
    ClientsAddUp(cr, es, period, cur, today);
    hide StatusAt, BucketOf, CountIn, FiguresOf, Quantize, Outstanding, Groups;
  }

  /** Every invoice is counted under exactly one status. */
  lemma {:induction false} StatusCountsAddUp(es: seq<Entry>, period: Option<Period>, cur: Currency, today: Date)
    ensures BucketOf(es, period, cur, today, Draft).count + BucketOf(es, period, cur, today, Issued).count
            + BucketOf(es, period, cur, today, Paid).count + BucketOf(es, period, cur, today, PartiallyPaid).count
            + BucketOf(es, period, cur, today, Overdue).count + BucketOf(es, period, cur, today, Voided).count
         == CountIn(es, period, cur, true)
  {
    if es != [] {
      StatusCountsAddUp(es[..|es| - 1], period, cur, today);
      hide InPeriod, EffectiveStatus;
    }
  }

  lemma {:induction false} InvoiceReportCounts(r: InvoiceReport, es: seq<Entry>, period: Option<Period>, cur: Currency, today: Date)
    requires IsInvoiceReport(r, es, period, cur, today)
    ensures StatusAt(r.statuses, Draft).count + StatusAt(r.statuses, Issued).count + StatusAt(r.statuses, Paid).count
            + StatusAt(r.statuses, PartiallyPaid).count + StatusAt(r.statuses, Overdue).count
            + StatusAt(r.statuses, Voided).count == r.invoiceCount
    ensures StatusAt(r.statuses, Draft).count == r.draftCount
  {
    hide StatusAt, BucketOf, CountIn, FiguresOf, Groups;
    StatusCountsAddUp(es, period, cur, today);
  }

  /** What a reachable ledger says of each entry. */
  ghost predicate Sound(e: Entry) {
    PaidMatches(e.invoice, e.paid) && e.invoice.totalTtc >= 0
  }

  lemma {:induction false} MajorAdds(a: int, b: int, cur: Currency)
    ensures Major(a + b, cur) == Major(a, cur) + Major(b, cur)
  {
    assert (a + b) as real == a as real + b as real;
  }

  lemma {:induction false} OneOwed(e: Entry, today: Date)
    requires Sound(e) && Billed(e.invoice)
    ensures var f := Billing(e, today); 0.0 <= f.overdue <= Major(f.invoiced, e.invoice.currency) - f.paid
  {
    hide EffectiveStatus;
  }

  lemma {:induction false} OwedNonNegative(es: seq<Entry>, period: Option<Period>, cur: Currency, today: Date)
    requires forall i :: 0 <= i < |es| ==> Sound(es[i])
    ensures var f := FiguresOf(es, period, cur, today, All); 0.0 <= f.overdue <= Major(f.invoiced, cur) - f.paid
  {
    hide InPeriod, Billing, Sound, Billed;
    if es != [] {
      var e, before := es[|es| - 1], FiguresOf(es[..|es| - 1], period, cur, today, All);
      OwedNonNegative(es[..|es| - 1], period, cur, today);
      if Billable(e, period, cur) {
        OneOwed(e, today);
        MajorAdds(before.invoiced, Billing(e, today).invoiced, cur);
      }
      hide Major;
    }
  }

  /** In every reachable ledger nothing outstanding is negative, and what is overdue is part of what
      is outstanding. */
  lemma {:induction false} OverdueIsOutstanding(s: Store, ids: seq<Id>, r: InvoiceReport, period: Option<Period>, cur: Currency, today: Date)
    requires Inv(s) && forall i :: 0 <= i < |ids| ==> ids[i] in s.invoices
    requires IsInvoiceReport(r, EntriesOf(s, ids), period, cur, today)
    ensures 0 <= r.overdueTotal <= r.outstandingTotal
  {
    hide Inv, InPeriod, StatusAt, BucketOf, CountIn, Groups, PaidMatches, PaidOn, Quantize, Major, FiguresOf;
    var es := EntriesOf(s, ids);
    forall i | 0 <= i < |es| ensures Sound(es[i]) {
      InvoiceFacts(s, ids[i]);
    }
    hide InvoiceOk, TotalsFrozen;
    OwedNonNegative(es, period, cur, today);
    var f := FiguresOf(es, period, cur, today, All);
    QuantizeZero(cur);
    QuantizeMonotone(0.0, f.overdue, cur);
    QuantizeMonotone(f.overdue, Major(f.invoiced, cur) - f.paid, cur);
  }
}
