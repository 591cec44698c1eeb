// What the two reports of core/services/reporting_service.py:512-607, 685-760 say of a ledger, in the fields of its rows.
module LedgerReports {
  import opened Common
  import opened Grouping
  import opened Calendar
  import opened Money
  import opened Store
  import opened LedgerInvariant
  import opened Periods
  import opened Reports
  import LedgerEffects
  import opened PlainAmounts

  // ------------------------------------------------------------------ which invoices

  /** Issued in part or whole unpaid, and due before today. */
  ghost predicate Late(inv: Invoice, today: Date) {
    && (inv.status == Issued || inv.status == PartiallyPaid)
    && inv.dueDate.Some? && Ordinal(inv.dueDate.value) < Ordinal(today)
  }

  /** The status a reader sees: late invoices read overdue, and no others. */
  lemma {:induction false} ShownStatus(s: Store, id: Id, today: Date)
    requires Inv(s) && id in s.invoices
    ensures EffectiveStatus(s.invoices[id], today) == if Late(s.invoices[id], today) then Overdue else s.invoices[id].status
  {
    InvoiceFacts(s, id);
    hide Inv, TotalsFrozen, SoundLines, PaidMatches, LawfullyIssued, Ordinal;
    if s.invoices[id].dueDate.Some? {
      OrdinalOrders(s.invoices[id].dueDate.value, today);
    }
  }

  ghost predicate Dated(inv: Invoice, period: Option<Period>, cur: Currency) {
    (period.Some? ==> InPeriod(inv.issueDate, period.value)) && inv.currency == cur
  }

  ghost predicate OfGroup(inv: Invoice, g: Group) {
    match g
    case All => true
    case OfClient(client) => inv.clientId == client
    case InMonth(month) => inv.issueDate.year == month.year && inv.issueDate.month == month.month
  }

  /** Money is asked for on an invoice that has a number and is not voided. */
  ghost predicate Receivable(inv: Invoice, period: Option<Period>, cur: Currency, g: Group) {
    inv.sequence.Some? && inv.status != Voided && Dated(inv, period, cur) && OfGroup(inv, g)
  }

  lemma {:induction false} ReceivableIff(s: Store, id: Id, paid: real, period: Option<Period>, cur: Currency, g: Group)
    requires Inv(s) && id in s.invoices
    ensures var inv := s.invoices[id];
            Receivable(inv, period, cur, g) <==> Billable(Entry(inv, paid), period, cur) && Belongs(inv, g)
  {
    BilledIff(s, id);
    hide Inv, Billed, InPeriod;
  }

  lemma {:induction false} BilledIff(s: Store, id: Id)
    requires Inv(s) && id in s.invoices
    ensures Billed(s.invoices[id]) <==> s.invoices[id].sequence.Some? && s.invoices[id].status != Voided
  {
    InvoiceFacts(s, id);
    hide Inv, TotalsFrozen, SoundLines, PaidMatches, LawfullyIssued, PaidOn, InvoicesOk, PaymentsOk, NotesOk, SeriesOk, PartiesExist;
  }

  // ------------------------------------------------------------------ for how much

  /** How many receivables, what was invoiced and received on them, how many are late and what is outstanding on
      those. */
  ghost function Receivables(s: Store, ids: seq<Id>, period: Option<Period>, cur: Currency, today: Date, g: Group): Figures {
    if ids == [] then Figures(0, 0, 0.0, 0, 0.0)
    else
      var id, before := ids[|ids| - 1], Receivables(s, ids[..|ids| - 1], period, cur, today, g);
      if id in s.invoices && Receivable(s.invoices[id], period, cur, g) then
        var inv, late := s.invoices[id], Late(s.invoices[id], today);
        Figures(before.count + 1, before.invoiced + inv.totalTtc, before.paid + PaidOn(s.payments, id),
                before.overdueCount + (if late then 1 else 0), before.overdue + if late then LedgerEffects.Outstanding(s, id) else 0.0)
      else before
  }

  lemma {:induction false} OneBilled(s: Store, id: Id, today: Date)
    requires Inv(s) && id in s.invoices
    ensures var inv, late := s.invoices[id], Late(s.invoices[id], today);
            Billing(Entry(inv, PaidOn(s.payments, id)), today)
            == Figures(1, inv.totalTtc, PaidOn(s.payments, id), if late then 1 else 0, if late then LedgerEffects.Outstanding(s, id) else 0.0)
  {
    ShownStatus(s, id, today);
    hide Inv, PaidOn, EffectiveStatus, Late;
    if s.invoices[id].status != Overdue {
      assert Owed(Entry(s.invoices[id], PaidOn(s.payments, id))) == LedgerEffects.Outstanding(s, id);
    }
    NeverStoredOverdue(s, id);
  }

  lemma {:induction false} NeverStoredOverdue(s: Store, id: Id)
    requires Inv(s) && id in s.invoices
    ensures s.invoices[id].status != Overdue
  {
    InvoiceFacts(s, id);
    hide Inv, TotalsFrozen, SoundLines, PaidMatches, LawfullyIssued;
  }

  lemma {:induction false} LastEntry(s: Store, ids: seq<Id>)
    requires ids != [] && forall i :: 0 <= i < |ids| ==> ids[i] in s.invoices
    ensures var n := |ids| - 1; EntriesOf(s, ids) == EntriesOf(s, ids[..n]) + [Entry(s.invoices[ids[n]], PaidOn(s.payments, ids[n]))]
  {
    hide PaidOn;
  }

  lemma {:induction false} NoEntries(s: Store, period: Option<Period>, cur: Currency, today: Date, g: Group)
    ensures FiguresOf(EntriesOf(s, []), period, cur, today, g) == Receivables(s, [], period, cur, today, g)
  {
  }

  lemma {:induction false} LastReceivable(s: Store, ids: seq<Id>, period: Option<Period>, cur: Currency, today: Date, g: Group)
    requires ids != [] && ids[|ids| - 1] in s.invoices
    ensures var id, before := ids[|ids| - 1], Receivables(s, ids[..|ids| - 1], period, cur, today, g);
            var inv, late := s.invoices[id], Late(s.invoices[id], today);
            Receivables(s, ids, period, cur, today, g)
            == if Receivable(inv, period, cur, g)
               then Plus(before, Figures(1, inv.totalTtc, PaidOn(s.payments, id), if late then 1 else 0,
                                         if late then LedgerEffects.Outstanding(s, id) else 0.0))
               else before
  {
    hide Receivable, Late, PaidOn, LedgerEffects.Outstanding;
  }

  lemma {:induction false} FiguresInFields(s: Store, ids: seq<Id>, period: Option<Period>, cur: Currency, today: Date, g: Group)
    requires Inv(s) && forall i :: 0 <= i < |ids| ==> ids[i] in s.invoices
    ensures FiguresOf(EntriesOf(s, ids), period, cur, today, g) == Receivables(s, ids, period, cur, today, g)
  {
    hide *;
    if ids == [] {
      NoEntries(s, period, cur, today, g);
    } else {
      var n := |ids| - 1;
      var e := Entry(s.invoices[ids[n]], PaidOn(s.payments, ids[n]));
      FiguresInFields(s, ids[..n], period, cur, today, g);
      LastEntry(s, ids);
      FiguresSnoc(EntriesOf(s, ids[..n]), e, period, cur, today, g);
      ReceivableIff(s, ids[n], e.paid, period, cur, g);
      OneBilled(s, ids[n], today);
      LastReceivable(s, ids, period, cur, today, g);
      PlusNothing(FiguresOf(EntriesOf(s, ids[..n]), period, cur, today, g));
    }
  }

  // ------------------------------------------------------------------ by status

  /** How many invoices a reader sees in a status, and what they come to; drafts come to nothing. */
  ghost function SeenAs(s: Store, ids: seq<Id>, period: Option<Period>, cur: Currency, today: Date, status: InvoiceStatus): StatusBucket {
    if ids == [] then StatusBucket(0, 0)
    else
      var id, before := ids[|ids| - 1], SeenAs(s, ids[..|ids| - 1], period, cur, today, status);
      if id in s.invoices && Dated(s.invoices[id], period, cur)
         && status == (if Late(s.invoices[id], today) then Overdue else s.invoices[id].status)
      then StatusBucket(before.count + 1, before.total + if s.invoices[id].status == Draft then 0 else s.invoices[id].totalTtc)
      else before
  }

  lemma {:induction false} DatedIff(e: Reports.Entry, period: Option<Period>, cur: Currency)
    ensures Selected(e, period, cur) <==> Dated(e.invoice, period, cur)
  {
    hide InPeriod;
  }

  lemma {:induction false} LastSeen(s: Store, ids: seq<Id>, period: Option<Period>, cur: Currency, today: Date, status: InvoiceStatus)
    requires ids != [] && ids[|ids| - 1] in s.invoices
    ensures var id, before := ids[|ids| - 1], SeenAs(s, ids[..|ids| - 1], period, cur, today, status);
            SeenAs(s, ids, period, cur, today, status) ==
              if Dated(s.invoices[id], period, cur) && status == (if Late(s.invoices[id], today) then Overdue else s.invoices[id].status)
              then StatusBucket(before.count + 1, before.total + if s.invoices[id].status == Draft then 0 else s.invoices[id].totalTtc)
              else before
  {
    hide Dated, Late;
  }

  lemma {:induction false} NoneSeen(s: Store, period: Option<Period>, cur: Currency, today: Date, status: InvoiceStatus)
    ensures BucketOf(EntriesOf(s, []), period, cur, today, status) == SeenAs(s, [], period, cur, today, status)
  {
  }

  lemma {:induction false} StatusesInFields(s: Store, ids: seq<Id>, period: Option<Period>, cur: Currency, today: Date, status: InvoiceStatus)
    requires Inv(s) && forall i :: 0 <= i < |ids| ==> ids[i] in s.invoices
    ensures BucketOf(EntriesOf(s, ids), period, cur, today, status) == SeenAs(s, ids, period, cur, today, status)
  {
    hide *;
    if ids == [] {
      NoneSeen(s, period, cur, today, status);
    } else {
      var n := |ids| - 1;
      var e := Entry(s.invoices[ids[n]], PaidOn(s.payments, ids[n]));
      StatusesInFields(s, ids[..n], period, cur, today, status);
      LastEntry(s, ids);
      BucketSnoc(EntriesOf(s, ids[..n]), e, period, cur, today, status);
      DatedIff(e, period, cur);
      ShownStatus(s, ids[n], today);
      LastSeen(s, ids, period, cur, today, status);
    }
  }

  // ------------------------------------------------------------------ the reports

  /** What is outstanding on some receivables. */
  ghost function Unpaid(f: Figures, cur: Currency): real {
    f.invoiced as real / UnitsIn(cur) - f.paid
  }

  lemma {:induction false} RoundedUnpaid(f: Figures, cur: Currency)
    ensures Near(Outstanding(f, cur), Unpaid(f, cur), cur)
  {
    assert Unpaid(f, cur) == Major(f.invoiced, cur) - f.paid;
    QuantizeIsNear(Major(f.invoiced, cur) - f.paid, cur);
    hide Quantize, Near, Unpaid;
  }

  /** In every sound ledger the invoice report states the receivables of the period and currency: what was invoiced,
      and to the nearest unit what was received, is outstanding and is overdue; and it counts every invoice under the
      status a reader sees. */
  lemma {:induction false} InvoiceReportInFields(s: Store, companyId: Id, ids: seq<Id>, r: InvoiceReport, period: Option<Period>, cur: Currency, today: Date)
    requires Inv(s) && Lists(ids, InvoicesOf(s, companyId)) && IsInvoiceReport(r, CompanyEntries(s, companyId, ids), period, cur, today)
    ensures var all := Receivables(s, ids, period, cur, today, All);
            && r.invoicedTotal == all.invoiced && r.overdueCount == all.overdueCount
            && Near(r.paidTotal, all.paid, cur) && Near(r.outstandingTotal, Unpaid(all, cur), cur) && Near(r.overdueTotal, all.overdue, cur)
    ensures forall status :: StatusAt(r.statuses, status) == SeenAs(s, ids, period, cur, today, status)
    ensures r.draftCount == SeenAs(s, ids, period, cur, today, Draft).count
  {
    hide *;
    Reports.ListedExist(s, companyId, ids);
    EntriesAre(s, companyId, ids);
    InvoiceReportParts(r, EntriesOf(s, ids), period, cur, today);
    FiguresInFields(s, ids, period, cur, today, All);
    var all := Receivables(s, ids, period, cur, today, All);
    QuantizeIsNear(all.paid, cur);
    QuantizeIsNear(all.overdue, cur);
    RoundedUnpaid(all, cur);
    forall status ensures StatusAt(r.statuses, status) == SeenAs(s, ids, period, cur, today, status) {
      StatusesInFields(s, ids, period, cur, today, status);
    }
    StatusesInFields(s, ids, period, cur, today, Draft);
  }

  lemma {:induction false} EntriesAre(s: Store, companyId: Id, ids: seq<Id>)
    requires Lists(ids, InvoicesOf(s, companyId)) && forall i :: 0 <= i < |ids| ==> ids[i] in s.invoices
    ensures CompanyEntries(s, companyId, ids) == EntriesOf(s, ids)
  {
  }

  lemma {:induction false} InvoiceReportParts(r: InvoiceReport, es: seq<Reports.Entry>, period: Option<Period>, cur: Currency, today: Date)
    requires IsInvoiceReport(r, es, period, cur, today)
    ensures var all := FiguresOf(es, period, cur, today, All);
            && r.invoicedTotal == all.invoiced && r.paidTotal == Quantize(all.paid, cur) && r.outstandingTotal == Outstanding(all, cur)
            && r.overdueCount == all.overdueCount && r.overdueTotal == Quantize(all.overdue, cur)
    ensures forall status :: StatusAt(r.statuses, status) == BucketOf(es, period, cur, today, status)
    ensures r.draftCount == BucketOf(es, period, cur, today, Draft).count
  {
    hide FiguresOf, Quantize, Outstanding, StatusAt, BucketOf, CountIn, Groups, MonthRows;
  }

  /** A row of the client report: the receivables of one client. */
  ghost predicate RowSays(row: ClientRow, f: Figures, cur: Currency) {
    && row.invoiceCount == f.count && row.invoicedTotal == f.invoiced && row.overdueCount == f.overdueCount
    && Near(row.paidTotal, f.paid, cur) && Near(row.outstandingTotal, Unpaid(f, cur), cur) && Near(row.overdueTotal, f.overdue, cur)
  }

  /** In every sound ledger the client report has at most one row for a client, with the client's receivables; who has
      no row has none. */
  lemma {:induction false} ClientReportInFields(s: Store, companyId: Id, ids: seq<Id>, r: ClientReport, period: Option<Period>, cur: Currency, today: Date)
    requires Inv(s) && Lists(ids, InvoicesOf(s, companyId)) && IsClientReport(r, CompanyEntries(s, companyId, ids), period, cur, today)
    ensures forall i :: 0 <= i < |r.clients| ==>
      RowSays(r.clients[i], Receivables(s, ids, period, cur, today, OfClient(r.clients[i].client)), cur)
    ensures forall i, j :: 0 <= i < j < |r.clients| ==> r.clients[i].client != r.clients[j].client
    ensures forall c :: (forall i :: 0 <= i < |r.clients| ==> r.clients[i].client != c) ==>
      Receivables(s, ids, period, cur, today, OfClient(c)) == Figures(0, 0, 0.0, 0, 0.0)
  {
    hide *;
    Reports.ListedExist(s, companyId, ids);
    EntriesAre(s, companyId, ids);
    var es := EntriesOf(s, ids);
    var t := ClientTable(r, es, period, cur, today);
    forall c ensures FiguresAt(t, OfClient(c)) == Receivables(s, ids, period, cur, today, OfClient(c)) {
      FiguresInFields(s, ids, period, cur, today, OfClient(c));
      ClientFigures(t, es, period, cur, today, c);
    }
    TableRows(t, es, period, cur, today);
    forall i | 0 <= i < |r.clients|
      ensures RowSays(r.clients[i], Receivables(s, ids, period, cur, today, OfClient(r.clients[i].client)), cur)
    {
      RowRead(t.order[i], FiguresAt(t, t.order[i]), cur);
    }
    forall c | forall i :: 0 <= i < |r.clients| ==> r.clients[i].client != c
      ensures Receivables(s, ids, period, cur, today, OfClient(c)) == Figures(0, 0, 0.0, 0, 0.0)
    {
      NoRow(t, es, period, cur, today, c);
    }
  }

  lemma {:induction false} ClientTable(r: ClientReport, es: seq<Reports.Entry>, period: Option<Period>, cur: Currency, today: Date) returns (t: Table)
    requires IsClientReport(r, es, period, cur, today)
    ensures Groups(t, ByClient, es, period, cur, today) && r.clients == ClientRows(t, cur)
  {
    hide Groups, ClientRows, CountIn;
    t :| Groups(t, ByClient, es, period, cur, today) && r.clients == ClientRows(t, cur);
  }

  lemma {:induction false} ClientFigures(t: Table, es: seq<Reports.Entry>, period: Option<Period>, cur: Currency, today: Date, c: Id)
    requires Groups(t, ByClient, es, period, cur, today)
    ensures FiguresAt(t, OfClient(c)) == FiguresOf(es, period, cur, today, OfClient(c))
  {
    hide FiguresAt, FiguresOf, TableOk, TotalOver;
  }

  lemma {:induction false} TableRows(t: Table, es: seq<Reports.Entry>, period: Option<Period>, cur: Currency, today: Date)
    requires Groups(t, ByClient, es, period, cur, today)
    ensures |ClientRows(t, cur)| == |t.order|
    ensures forall i :: 0 <= i < |t.order| ==>
      t.order[i] == OfClient(ClientRows(t, cur)[i].client) && ClientRows(t, cur)[i] == ClientRowOf(t.order[i], FiguresAt(t, t.order[i]), cur)
    ensures forall i, j :: 0 <= i < j < |t.order| ==> ClientRows(t, cur)[i].client != ClientRows(t, cur)[j].client
  {
    hide FiguresAt, FiguresOf, TotalOver, Quantize, Outstanding;
    forall i | 0 <= i < |t.order| ensures t.order[i].OfClient? {
      assert t.order[i] in t.order;
    }
  }

  lemma {:induction false} RowRead(g: Group, f: Figures, cur: Currency)
    ensures RowSays(ClientRowOf(g, f, cur), f, cur)
  {
    QuantizeIsNear(f.paid, cur);
    QuantizeIsNear(f.overdue, cur);
    RoundedUnpaid(f, cur);
    hide Quantize, Near, Unpaid, Outstanding;
  }

  lemma {:induction false} NoRow(t: Table, es: seq<Reports.Entry>, period: Option<Period>, cur: Currency, today: Date, c: Id)
    requires Groups(t, ByClient, es, period, cur, today)
    requires forall i :: 0 <= i < |ClientRows(t, cur)| ==> ClientRows(t, cur)[i].client != c
    ensures FiguresAt(t, OfClient(c)) == Figures(0, 0, 0.0, 0, 0.0)
  {
    TableRows(t, es, period, cur, today);
    hide FiguresOf, TotalOver, ClientRows, ClientRowOf;
    assert forall i :: 0 <= i < |t.order| ==> t.order[i] != OfClient(c);
    assert OfClient(c) !in t.order;
  }
}
