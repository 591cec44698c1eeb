// What a VAT report says of a ledger (core/services/reporting_service.py:17-31, 419-510), in the fields of the
// ledger's rows: which documents count, how many, and for how much.
module VatReturns {
  import opened Common
  import opened Grouping
  import opened Money
  import opened Lines
  import opened Calendar
  import opened CurrencyMath
  import opened Store
  import opened Transactions
  import opened LedgerInvariant
  import opened Periods
  import opened VatReports
  import opened LedgerEffects

  // ------------------------------------------------------------------ which documents count

  /** An invoice that has a number and is not voided, or that a credit note voided. */
  ghost predicate Supplied(inv: Invoice) {
    (inv.sequence.Some? && inv.status != Voided) || inv.voidedBy.Some?
  }

  lemma {:induction false} SuppliedIff(s: Store, id: Id)
    requires Inv(s) && id in s.invoices
    ensures Declarable(s.invoices[id]) <==> Supplied(s.invoices[id])
  {
    InvoiceFacts(s, id);
    hide Inv, TotalsFrozen, SoundLines, PaidMatches, LawfullyIssued;
  }

  /** The supplies among some invoices that fall into a period. */
  ghost function Sales(s: Store, ids: set<Id>, p: Period): set<Id> {
    set id | id in ids && id in s.invoices && Supplied(s.invoices[id]) && InPeriod(s.invoices[id].issueDate, p)
  }

  ghost function Corrections(s: Store, ids: set<Id>, p: Period): set<Id> {
    set id | id in ids && id in s.notes && InPeriod(s.notes[id].issueDate, p)
  }

  /** Those invoiced in a currency, and those invoiced in any other. */
  ghost function SalesIn(s: Store, ids: set<Id>, p: Period, cur: Currency): set<Id> {
    set id | id in Sales(s, ids, p) && s.invoices[id].currency == cur
  }

  ghost function SalesOutside(s: Store, ids: set<Id>, p: Period, cur: Currency): set<Id> {
    set id | id in Sales(s, ids, p) && s.invoices[id].currency != cur
  }

  ghost function CorrectionsIn(s: Store, ids: set<Id>, p: Period, cur: Currency): set<Id> {
    set id | id in Corrections(s, ids, p) && s.notes[id].currency == cur
  }

  ghost function CorrectionsOutside(s: Store, ids: set<Id>, p: Period, cur: Currency): set<Id> {
    set id | id in Corrections(s, ids, p) && s.notes[id].currency != cur
  }

  // ------------------------------------------------------------------ for how much

  datatype Column = Base | Tax

  function Figure(b: VatBucket, c: Column): int {
    if c.Base? then b.taxableBase else b.vatAmount
  }

  /** What the buckets of a document state under one category and rate, or under all of them. */
  ghost function Stated(buckets: seq<VatBucket>, k: Option<VatKey>, c: Column): int {
    if buckets == [] then 0
    else
      var last := buckets[|buckets| - 1];
      Stated(buckets[..|buckets| - 1], k, c) + if k == None || k == Some(last.key) then Figure(last, c) else 0
  }

  /** The sum over the supplies of the period that are invoiced in the currency. */
  ghost function Sold(s: Store, ids: seq<Id>, k: Option<VatKey>, c: Column, cur: Currency, p: Period): int {
    if ids == [] then 0
    else
      var id := ids[|ids| - 1];
      Sold(s, ids[..|ids| - 1], k, c, cur, p)
      + if id in s.invoices && Supplied(s.invoices[id]) && InPeriod(s.invoices[id].issueDate, p) && s.invoices[id].currency == cur
        then Stated(BucketsOf(s.invoices[id].lines, s.invoices[id].discount, cur), k, c) else 0
  }

  /** The same over the credit notes. */
  ghost function GivenBack(s: Store, ids: seq<Id>, k: Option<VatKey>, c: Column, cur: Currency, p: Period): int {
    if ids == [] then 0
    else
      var id := ids[|ids| - 1];
      GivenBack(s, ids[..|ids| - 1], k, c, cur, p)
      + if id in s.notes && InPeriod(s.notes[id].issueDate, p) && s.notes[id].currency == cur
        then Stated(BucketsOf(AsInvoiceLines(s.notes[id].lines), None, cur), k, c) else 0
  }

  ghost function Figures(s: Store, invoiceIds: seq<Id>, noteIds: seq<Id>, k: Option<VatKey>, cur: Currency, p: Period): Amounts {
    Amounts(Sold(s, invoiceIds, k, Base, cur, p), Sold(s, invoiceIds, k, Tax, cur, p),
            GivenBack(s, noteIds, k, Base, cur, p), GivenBack(s, noteIds, k, Tax, cur, p))
  }

  // ------------------------------------------------------------------ one document

  lemma {:induction false} UnderLast(side: Side, buckets: seq<VatBucket>, k: VatKey)
    requires buckets != []
    ensures var last := buckets[|buckets| - 1];
            Under(side, buckets, k)
            == Plus(Under(side, buckets[..|buckets| - 1], k), if last.key == k then Entry(side, last) else NOTHING)
  {
    hide Plus, Entry;
  }

  lemma {:induction false} StatedLast(buckets: seq<VatBucket>, k: VatKey, c: Column)
    requires buckets != []
    ensures var last := buckets[|buckets| - 1];
            Stated(buckets, Some(k), c) == Stated(buckets[..|buckets| - 1], Some(k), c) + if last.key == k then Figure(last, c) else 0
  {
    hide Figure;
  }

  lemma {:induction false} UnderStates(buckets: seq<VatBucket>, k: VatKey)
    ensures Under(Invoiced, buckets, k) == Amounts(Stated(buckets, Some(k), Base), Stated(buckets, Some(k), Tax), 0, 0)
    ensures Under(Credited, buckets, k) == Amounts(0, 0, Stated(buckets, Some(k), Base), Stated(buckets, Some(k), Tax))
  {
    hide Under, Stated;
    if buckets == [] {
      NothingStated(k);
    } else {
      UnderStates(buckets[..|buckets| - 1], k);
      UnderLast(Invoiced, buckets, k);
      UnderLast(Credited, buckets, k);
      StatedLast(buckets, k, Base);
      StatedLast(buckets, k, Tax);
    }
  }

  lemma {:induction false} NothingStated(k: VatKey)
    ensures Under(Invoiced, [], k) == NOTHING && Under(Credited, [], k) == NOTHING
    ensures Stated([], Some(k), Base) == 0 && Stated([], Some(k), Tax) == 0
  {
  }

  lemma {:induction false} AllStates(buckets: seq<VatBucket>)
    ensures InAll(Invoiced, buckets) == Amounts(Stated(buckets, None, Base), Stated(buckets, None, Tax), 0, 0)
    ensures InAll(Credited, buckets) == Amounts(0, 0, Stated(buckets, None, Base), Stated(buckets, None, Tax))
  {
    if buckets != [] {
      AllStates(buckets[..|buckets| - 1]);
    }
  }

  function AskedFor(k: Option<VatKey>): Measure {
    if k.Some? then Key(k.value) else Everything
  }

  lemma {:induction false} WeightStates(d: Document, k: Option<VatKey>, cur: Currency)
    ensures Weight(AskedFor(k), d, cur) ==
      if d.currency != cur then NOTHING
      else if d.side == Invoiced then Amounts(Stated(d.buckets, k, Base), Stated(d.buckets, k, Tax), 0, 0)
      else Amounts(0, 0, Stated(d.buckets, k, Base), Stated(d.buckets, k, Tax))
  {
    AllStates(d.buckets);
    if k.Some? {
      UnderStates(d.buckets, k.value);
    }
    hide Stated, Under, InAll;
  }

  // ------------------------------------------------------------------ the listed documents

  function Sellings(s: Store, ids: seq<Id>): (r: seq<Document>)
    requires forall i :: 0 <= i < |ids| ==> ids[i] in s.invoices
    ensures |r| == |ids|
  {
    seq(|ids|, i requires 0 <= i < |ids| => InvoiceDocument(s.invoices[ids[i]]))
  }

  function Creditings(s: Store, ids: seq<Id>): (r: seq<Document>)
    requires forall i :: 0 <= i < |ids| ==> ids[i] in s.notes
    ensures |r| == |ids|
  {
    seq(|ids|, i requires 0 <= i < |ids| => NoteDocument(s.notes[ids[i]]))
  }

  lemma {:induction false} DocumentsListed(s: Store, companyId: Id, invoiceIds: seq<Id>, noteIds: seq<Id>)
    requires ListsCompany(s, companyId, invoiceIds, noteIds)
    ensures forall i :: 0 <= i < |invoiceIds| ==> invoiceIds[i] in s.invoices
    ensures forall i :: 0 <= i < |noteIds| ==> noteIds[i] in s.notes
    ensures CompanyDocuments(s, companyId, invoiceIds, noteIds) == Sellings(s, invoiceIds) + Creditings(s, noteIds)
  {
    ListedExist(s, companyId, invoiceIds, noteIds);
    hide ListsCompany, InvoiceDocument, NoteDocument;
  }

  lemma {:induction false} LastSelling(s: Store, ids: seq<Id>, m: Measure, cur: Currency, p: Period)
    requires ids != [] && forall i :: 0 <= i < |ids| ==> ids[i] in s.invoices
    ensures var n := |ids| - 1;
            var d := InvoiceDocument(s.invoices[ids[n]]);
            Tally(Sellings(s, ids), m, cur, p)
            == Plus(Tally(Sellings(s, ids[..n]), m, cur, p), if Dated(d, p) then Weight(m, d, cur) else NOTHING)
  {
    hide InvoiceDocument, Tally, Dated, Weight, Plus;
    var n := |ids| - 1;
    assert Sellings(s, ids) == Sellings(s, ids[..n]) + [InvoiceDocument(s.invoices[ids[n]])];
    TallySnoc(Sellings(s, ids[..n]), InvoiceDocument(s.invoices[ids[n]]), m, cur, p);
  }

  lemma {:induction false} LastCrediting(s: Store, ids: seq<Id>, m: Measure, cur: Currency, p: Period)
    requires ids != [] && forall i :: 0 <= i < |ids| ==> ids[i] in s.notes
    ensures var n := |ids| - 1;
            var d := NoteDocument(s.notes[ids[n]]);
            Tally(Creditings(s, ids), m, cur, p)
            == Plus(Tally(Creditings(s, ids[..n]), m, cur, p), if Dated(d, p) then Weight(m, d, cur) else NOTHING)
  {
    hide NoteDocument, Tally, Dated, Weight, Plus;
    var n := |ids| - 1;
    assert Creditings(s, ids) == Creditings(s, ids[..n]) + [NoteDocument(s.notes[ids[n]])];
    TallySnoc(Creditings(s, ids[..n]), NoteDocument(s.notes[ids[n]]), m, cur, p);
  }

  lemma {:induction false} NoSelling(s: Store, m: Measure, cur: Currency, p: Period)
    ensures Tally(Sellings(s, []), m, cur, p) == NOTHING && Tally(Creditings(s, []), m, cur, p) == NOTHING
  {
  }

  lemma {:induction false} SoldTally(s: Store, ids: seq<Id>, k: Option<VatKey>, cur: Currency, p: Period)
    requires Inv(s) && forall i :: 0 <= i < |ids| ==> ids[i] in s.invoices
    ensures Tally(Sellings(s, ids), AskedFor(k), cur, p)
         == Amounts(Sold(s, ids, k, Base, cur, p), Sold(s, ids, k, Tax, cur, p), 0, 0)
  {
    hide Inv, Tally, Sellings, Supplied, Declarable, InPeriod, Stated, BucketsOf, Weight, AskedFor, Dated, InvoiceDocument;
    if ids == [] {
      NoSelling(s, AskedFor(k), cur, p);
    } else {
      var n := |ids| - 1;
      SoldTally(s, ids[..n], k, cur, p);
      LastSelling(s, ids, AskedFor(k), cur, p);
      SuppliedIff(s, ids[n]);
      InvoiceRead(s.invoices[ids[n]], p);
      WeightStates(InvoiceDocument(s.invoices[ids[n]]), k, cur);
    }
  }

  lemma {:induction false} GivenBackTally(s: Store, ids: seq<Id>, k: Option<VatKey>, cur: Currency, p: Period)
    requires forall i :: 0 <= i < |ids| ==> ids[i] in s.notes
    ensures Tally(Creditings(s, ids), AskedFor(k), cur, p)
         == Amounts(0, 0, GivenBack(s, ids, k, Base, cur, p), GivenBack(s, ids, k, Tax, cur, p))
  {
    hide Tally, Creditings, InPeriod, Stated, BucketsOf, Weight, AskedFor, Dated, NoteDocument, AsInvoiceLines;
    if ids == [] {
      NoSelling(s, AskedFor(k), cur, p);
    } else {
      var n := |ids| - 1;
      GivenBackTally(s, ids[..n], k, cur, p);
      LastCrediting(s, ids, AskedFor(k), cur, p);
      NoteRead(s.notes[ids[n]], p);
      WeightStates(NoteDocument(s.notes[ids[n]]), k, cur);
    }
  }

  lemma {:induction false} FiguresTally(s: Store, companyId: Id, invoiceIds: seq<Id>, noteIds: seq<Id>, k: Option<VatKey>, cur: Currency, p: Period)
    requires Inv(s) && ListsCompany(s, companyId, invoiceIds, noteIds)
    ensures Tally(CompanyDocuments(s, companyId, invoiceIds, noteIds), AskedFor(k), cur, p) == Figures(s, invoiceIds, noteIds, k, cur, p)
  {
    DocumentsListed(s, companyId, invoiceIds, noteIds);
    hide Inv, Tally, Sold, GivenBack, AskedFor, Sellings, Creditings, ListsCompany, CompanyDocuments;
    SoldTally(s, invoiceIds, k, cur, p);
    GivenBackTally(s, noteIds, k, cur, p);
    TallyAppend(Sellings(s, invoiceIds), Creditings(s, noteIds), AskedFor(k), cur, p);
  }

  // ------------------------------------------------------------------ counts

  ghost function IdsOf(ids: seq<Id>): set<Id> {
    set id | id in ids
  }

  lemma {:induction false} OneMoreId(ids: seq<Id>)
    requires ids != [] && Distinct(ids)
    ensures var n := |ids| - 1;
            IdsOf(ids) == IdsOf(ids[..n]) + {ids[n]} && ids[n] !in IdsOf(ids[..n]) && Distinct(ids[..n])
  {
    var n := |ids| - 1;
    assert ids == ids[..n] + [ids[n]];
  }

  lemma {:induction false} SaleAdded(s: Store, ids: set<Id>, id: Id, p: Period)
    requires id !in ids && id in s.invoices
    ensures Sales(s, ids + {id}, p)
         == if Supplied(s.invoices[id]) && InPeriod(s.invoices[id].issueDate, p) then Sales(s, ids, p) + {id} else Sales(s, ids, p)
    ensures id !in Sales(s, ids, p)
  {
    hide Supplied, InPeriod;
  }

  lemma {:induction false} CorrectionAdded(s: Store, ids: set<Id>, id: Id, p: Period)
    requires id !in ids && id in s.notes
    ensures Corrections(s, ids + {id}, p)
         == if InPeriod(s.notes[id].issueDate, p) then Corrections(s, ids, p) + {id} else Corrections(s, ids, p)
    ensures id !in Corrections(s, ids, p)
  {
    hide InPeriod;
  }

  ghost function Filter(ids: set<Id>, f: Id -> bool): set<Id> {
    set x | x in ids && f(x)
  }

  lemma {:induction false} FilterOneMore(ids: set<Id>, id: Id, f: Id -> bool)
    requires id !in ids
    ensures |Filter(ids + {id}, f)| == |Filter(ids, f)| + if f(id) then 1 else 0
  {
    assert Filter(ids + {id}, f) == Filter(ids, f) + if f(id) then {id} else {};
  }

  lemma {:induction false} SalesSplit(s: Store, ids: set<Id>, p: Period, cur: Currency)
    ensures SalesIn(s, ids, p, cur) == Filter(Sales(s, ids, p), InvoicedIn(s, cur))
    ensures SalesOutside(s, ids, p, cur) == Filter(Sales(s, ids, p), InvoicedOutside(s, cur))
  {
    hide Supplied, InPeriod;
  }

  lemma {:induction false} CorrectionsSplit(s: Store, ids: set<Id>, p: Period, cur: Currency)
    ensures CorrectionsIn(s, ids, p, cur) == Filter(Corrections(s, ids, p), CreditedIn(s, cur))
    ensures CorrectionsOutside(s, ids, p, cur) == Filter(Corrections(s, ids, p), CreditedOutside(s, cur))
  {
    hide InPeriod;
  }

  ghost function InvoicedIn(s: Store, cur: Currency): Id -> bool {
    id => id in s.invoices && s.invoices[id].currency == cur
  }

  ghost function InvoicedOutside(s: Store, cur: Currency): Id -> bool {
    id => id in s.invoices && s.invoices[id].currency != cur
  }

  ghost function CreditedIn(s: Store, cur: Currency): Id -> bool {
    id => id in s.notes && s.notes[id].currency == cur
  }

  ghost function CreditedOutside(s: Store, cur: Currency): Id -> bool {
    id => id in s.notes && s.notes[id].currency != cur
  }

  /** One more invoice counts once, on one side or the other, if it is a supply of the period. */
  lemma {:induction false} OneMoreSale(s: Store, ids: set<Id>, id: Id, p: Period, cur: Currency)
    requires id !in ids && id in s.invoices
    ensures var inv := s.invoices[id];
            var counted := Supplied(inv) && InPeriod(inv.issueDate, p);
            && |SalesIn(s, ids + {id}, p, cur)| == |SalesIn(s, ids, p, cur)| + (if counted && inv.currency == cur then 1 else 0)
            && |SalesOutside(s, ids + {id}, p, cur)| == |SalesOutside(s, ids, p, cur)| + (if counted && inv.currency != cur then 1 else 0)
  {
    hide Supplied, InPeriod, Sales, SalesIn, SalesOutside, Filter;
    SaleAdded(s, ids, id, p);
    SalesSplit(s, ids, p, cur);
    SalesSplit(s, ids + {id}, p, cur);
    FilterOneMore(Sales(s, ids, p), id, InvoicedIn(s, cur));
    FilterOneMore(Sales(s, ids, p), id, InvoicedOutside(s, cur));
  }

  lemma {:induction false} OneMoreCorrection(s: Store, ids: set<Id>, id: Id, p: Period, cur: Currency)
    requires id !in ids && id in s.notes
    ensures var note := s.notes[id];
            var counted := InPeriod(note.issueDate, p);
            && |CorrectionsIn(s, ids + {id}, p, cur)| == |CorrectionsIn(s, ids, p, cur)| + (if counted && note.currency == cur then 1 else 0)
            && |CorrectionsOutside(s, ids + {id}, p, cur)|
               == |CorrectionsOutside(s, ids, p, cur)| + (if counted && note.currency != cur then 1 else 0)
  {
    hide InPeriod, Corrections, CorrectionsIn, CorrectionsOutside, Filter;
    CorrectionAdded(s, ids, id, p);
    CorrectionsSplit(s, ids, p, cur);
    CorrectionsSplit(s, ids + {id}, p, cur);
    FilterOneMore(Corrections(s, ids, p), id, CreditedIn(s, cur));
    FilterOneMore(Corrections(s, ids, p), id, CreditedOutside(s, cur));
  }

  lemma {:induction false} NoSales(s: Store, p: Period, cur: Currency)
    ensures SalesIn(s, IdsOf([]), p, cur) == {} && SalesOutside(s, IdsOf([]), p, cur) == {}
    ensures CorrectionsIn(s, IdsOf([]), p, cur) == {} && CorrectionsOutside(s, IdsOf([]), p, cur) == {}
  {
    hide Supplied, InPeriod;
    assert IdsOf([]) == {};
    assert Sales(s, {}, p) == {} && Corrections(s, {}, p) == {};
    hide Sales, Corrections;
    assert SalesIn(s, {}, p, cur) == {} && SalesOutside(s, {}, p, cur) == {};
    assert CorrectionsIn(s, {}, p, cur) == {} && CorrectionsOutside(s, {}, p, cur) == {};
  }

  lemma {:induction false} CountingWeight(d: Document, cur: Currency)
    ensures Weight(Counting, d, cur) ==
      if d.currency != cur then Amounts(0, 0, 1, 0) else if d.side == Invoiced then Amounts(1, 0, 0, 0) else Amounts(0, 1, 0, 0)
  {
  }

  lemma {:induction false} SalesTally(s: Store, ids: seq<Id>, cur: Currency, p: Period)
    requires Inv(s) && Distinct(ids) && forall i :: 0 <= i < |ids| ==> ids[i] in s.invoices
    ensures Tally(Sellings(s, ids), Counting, cur, p)
         == Amounts(|SalesIn(s, IdsOf(ids), p, cur)|, 0, |SalesOutside(s, IdsOf(ids), p, cur)|, 0)
  {
    hide Inv, Tally, Sellings, Supplied, Declarable, InPeriod, Weight, Dated, InvoiceDocument, SalesIn, SalesOutside, IdsOf, Distinct, BucketsOf;
    if ids == [] {
      NoSelling(s, Counting, cur, p);
      NoSales(s, p, cur);
    } else {
      var n := |ids| - 1;
      OneMoreId(ids);
      SalesTally(s, ids[..n], cur, p);
      LastSelling(s, ids, Counting, cur, p);
      OneMoreSale(s, IdsOf(ids[..n]), ids[n], p, cur);
      SuppliedIff(s, ids[n]);
      InvoiceRead(s.invoices[ids[n]], p);
      CountingWeight(InvoiceDocument(s.invoices[ids[n]]), cur);
    }
  }

  lemma {:induction false} CorrectionsTally(s: Store, ids: seq<Id>, cur: Currency, p: Period)
    requires Distinct(ids) && forall i :: 0 <= i < |ids| ==> ids[i] in s.notes
    ensures Tally(Creditings(s, ids), Counting, cur, p)
         == Amounts(0, |CorrectionsIn(s, IdsOf(ids), p, cur)|, |CorrectionsOutside(s, IdsOf(ids), p, cur)|, 0)
  {
    hide Tally, Creditings, InPeriod, Weight, Dated, NoteDocument, CorrectionsIn, CorrectionsOutside, IdsOf, Distinct, BucketsOf, AsInvoiceLines;
    if ids == [] {
      NoSelling(s, Counting, cur, p);
      NoSales(s, p, cur);
    } else {
      var n := |ids| - 1;
      OneMoreId(ids);
      CorrectionsTally(s, ids[..n], cur, p);
      LastCrediting(s, ids, Counting, cur, p);
      OneMoreCorrection(s, IdsOf(ids[..n]), ids[n], p, cur);
      NoteRead(s.notes[ids[n]], p);
      CountingWeight(NoteDocument(s.notes[ids[n]]), cur);
    }
  }

  lemma {:induction false} CountsTally(s: Store, companyId: Id, invoiceIds: seq<Id>, noteIds: seq<Id>, cur: Currency, p: Period)
    requires Inv(s) && ListsCompany(s, companyId, invoiceIds, noteIds)
    ensures var sales, corrections := InvoicesOf(s, companyId), NotesOf(s, companyId);
            Tally(CompanyDocuments(s, companyId, invoiceIds, noteIds), Counting, cur, p)
            == Amounts(|SalesIn(s, sales, p, cur)|, |CorrectionsIn(s, corrections, p, cur)|,
                       |SalesOutside(s, sales, p, cur)| + |CorrectionsOutside(s, corrections, p, cur)|, 0)
  {
    DocumentsListed(s, companyId, invoiceIds, noteIds);
    ListingsCover(s, companyId, invoiceIds, noteIds);
    hide Inv, Tally, SalesIn, SalesOutside, CorrectionsIn, CorrectionsOutside, Sellings, Creditings, ListsCompany, CompanyDocuments, IdsOf,
         InvoicesOf, NotesOf, Distinct;
    SalesTally(s, invoiceIds, cur, p);
    CorrectionsTally(s, noteIds, cur, p);
    TallyAppend(Sellings(s, invoiceIds), Creditings(s, noteIds), Counting, cur, p);
  }

  lemma {:induction false} ListingsCover(s: Store, companyId: Id, invoiceIds: seq<Id>, noteIds: seq<Id>)
    requires ListsCompany(s, companyId, invoiceIds, noteIds)
    ensures Distinct(invoiceIds) && IdsOf(invoiceIds) == InvoicesOf(s, companyId)
    ensures Distinct(noteIds) && IdsOf(noteIds) == NotesOf(s, companyId)
  {
    hide Distinct, InvoicesOf, NotesOf;
  }

  // ------------------------------------------------------------------ the report

  /** One line for each category and rate, in order, with what the period's documents sum to under it; where there
      is no line they sum to nothing. */
  ghost predicate LinesSay(r: VatReport, s: Store, invoiceIds: seq<Id>, noteIds: seq<Id>, cur: Currency, p: Period) {
    && StrictlySorted(LineKeys(r.lines))
    && (forall i :: 0 <= i < |r.lines| ==> LineSays(r.lines[i], Figures(s, invoiceIds, noteIds, Some(r.lines[i].key), cur, p)))
    && (forall k :: k !in LineKeys(r.lines) ==> Figures(s, invoiceIds, noteIds, Some(k), cur, p) == Amounts(0, 0, 0, 0))
  }

  ghost predicate LineSays(line: VatReportLine, a: Amounts) {
    && line.amounts == a
    && line.netBase == a.invoicedBase - a.creditedBase && line.netVat == a.invoicedVat - a.creditedVat
    && line.grid == GridFor(line.key)
  }

  ghost predicate TotalsSay(r: VatReport, a: Amounts) {
    && r.total == a
    && r.netBase == a.invoicedBase - a.creditedBase && r.netVat == a.invoicedVat - a.creditedVat
  }

  /** In every sound ledger a report counts and sums exactly the numbered invoices of the company, period and
      currency that are not voided, together with those a credit note voided, and the credit notes on the other side;
      documents of another currency are counted as left out. */
  lemma {:induction false} ReportInFields(s: Store, companyId: Id, invoiceIds: seq<Id>, noteIds: seq<Id>, r: VatReport, cur: Currency, p: Period)
    requires Inv(s) && ListsCompany(s, companyId, invoiceIds, noteIds)
    requires IsReport(r, CompanyDocuments(s, companyId, invoiceIds, noteIds), cur, p)
    ensures LinesSay(r, s, invoiceIds, noteIds, cur, p) && TotalsSay(r, Figures(s, invoiceIds, noteIds, None, cur, p))
    ensures r.invoiceCount == |SalesIn(s, InvoicesOf(s, companyId), p, cur)|
    ensures r.creditNoteCount == |CorrectionsIn(s, NotesOf(s, companyId), p, cur)|
    ensures r.skipped == |SalesOutside(s, InvoicesOf(s, companyId), p, cur)| + |CorrectionsOutside(s, NotesOf(s, companyId), p, cur)|
  {
    hide *;
    ReportParts(r, CompanyDocuments(s, companyId, invoiceIds, noteIds), cur, p);
    CountsTally(s, companyId, invoiceIds, noteIds, cur, p);
    FiguresTally(s, companyId, invoiceIds, noteIds, None, cur, p);
    AskedForAll();
    forall k ensures AmountsAt(r.lines, k) == Figures(s, invoiceIds, noteIds, Some(k), cur, p) {
      FiguresTally(s, companyId, invoiceIds, noteIds, Some(k), cur, p);
      AskedForKey(k);
    }
    LinesRead(r, s, invoiceIds, noteIds, cur, p);
  }

  /** So it does in every ledger an empty organization can reach. */
  lemma {:induction false} ReachableReports(cs: seq<Command>, s: Store, companyId: Id, invoiceIds: seq<Id>, noteIds: seq<Id>, r: VatReport,
                                            cur: Currency, p: Period)
    requires s == Run(EMPTY, cs) && ListsCompany(s, companyId, invoiceIds, noteIds)
    requires IsReport(r, CompanyDocuments(s, companyId, invoiceIds, noteIds), cur, p)
    ensures LinesSay(r, s, invoiceIds, noteIds, cur, p) && TotalsSay(r, Figures(s, invoiceIds, noteIds, None, cur, p))
    ensures r.invoiceCount == |SalesIn(s, InvoicesOf(s, companyId), p, cur)|
    ensures r.creditNoteCount == |CorrectionsIn(s, NotesOf(s, companyId), p, cur)|
    ensures r.skipped == |SalesOutside(s, InvoicesOf(s, companyId), p, cur)| + |CorrectionsOutside(s, NotesOf(s, companyId), p, cur)|
  {
    hide *;
    ReachableInv(cs);
    ReportInFields(s, companyId, invoiceIds, noteIds, r, cur, p);
  }

  lemma {:induction false} AskedForAll()
    ensures AskedFor(None) == Everything
  {
  }

  lemma {:induction false} AskedForKey(k: VatKey)
    ensures AskedFor(Some(k)) == Key(k)
  {
  }

  lemma {:induction false} ReportParts(r: VatReport, docs: seq<Document>, cur: Currency, p: Period)
    requires IsReport(r, docs, cur, p)
    ensures TotalsSay(r, Tally(docs, Everything, cur, p))
    ensures Amounts(r.invoiceCount, r.creditNoteCount, r.skipped, 0) == Tally(docs, Counting, cur, p)
    ensures forall k :: AmountsAt(r.lines, k) == Tally(docs, Key(k), cur, p)
    ensures StrictlySorted(LineKeys(r.lines)) && forall i :: 0 <= i < |r.lines| ==> r.lines[i] == LineFor(r.lines[i].key, r.lines[i].amounts)
  {
    hide Tally, StrictlySorted, LineKeys, LineFor, AmountsAt;
  }

  lemma {:induction false} LinesRead(r: VatReport, s: Store, invoiceIds: seq<Id>, noteIds: seq<Id>, cur: Currency, p: Period)
    requires StrictlySorted(LineKeys(r.lines))
    requires forall i :: 0 <= i < |r.lines| ==> r.lines[i] == LineFor(r.lines[i].key, r.lines[i].amounts)
    requires forall k :: AmountsAt(r.lines, k) == Figures(s, invoiceIds, noteIds, Some(k), cur, p)
    ensures LinesSay(r, s, invoiceIds, noteIds, cur, p)
  {
    hide Figures, AmountsAt, GridFor, StrictlySorted, KeyBefore;
    forall i | 0 <= i < |r.lines| ensures LineSays(r.lines[i], Figures(s, invoiceIds, noteIds, Some(r.lines[i].key), cur, p)) {
      LineFound(r.lines, i);
    }
    forall k | k !in LineKeys(r.lines) ensures AmountsAt(r.lines, k) == Amounts(0, 0, 0, 0) {
      LineMissing(r.lines, k);
    }
  }

  lemma {:induction false} SortedOnce(ks: seq<VatKey>, i: nat, j: nat)
    requires StrictlySorted(ks) && i < j < |ks|
    ensures ks[i] != ks[j]
  {
  }

  lemma {:induction false} LineFound(lines: seq<VatReportLine>, i: nat)
    requires StrictlySorted(LineKeys(lines)) && i < |lines|
    ensures AmountsAt(lines, lines[i].key) == lines[i].amounts
  {
    var n := |lines| - 1;
    if i < n {
      SortedOnce(LineKeys(lines), i, n);
      assert LineKeys(lines)[..n] == LineKeys(lines[..n]);
      SortedFront(LineKeys(lines));
      LineFound(lines[..n], i);
      hide StrictlySorted, LineKeys;
    }
  }

  lemma {:induction false} SortedFront(ks: seq<VatKey>)
    requires StrictlySorted(ks) && ks != []
    ensures StrictlySorted(ks[..|ks| - 1])
  {
    hide KeyBefore;
  }

  lemma {:induction false} LineMissing(lines: seq<VatReportLine>, k: VatKey)
    requires k !in LineKeys(lines)
    ensures AmountsAt(lines, k) == Amounts(0, 0, 0, 0)
  {
    if lines != [] {
      var n := |lines| - 1;
      assert LineKeys(lines)[n] == lines[n].key;
      assert LineKeys(lines)[..n] == LineKeys(lines[..n]);
      LineMissing(lines[..n], k);
    }
  }

  // ------------------------------------------------------------------ what leaves a report alone

  /** The rows of two ledgers that a report reads alike. */
  lemma {:induction false} SameDocuments(s: Store, s': Store, companyId: Id, invoiceIds: seq<Id>, noteIds: seq<Id>)
    requires ListsCompany(s, companyId, invoiceIds, noteIds)
    requires s'.notes == s.notes && s'.invoices.Keys == s.invoices.Keys
    requires forall id :: id in s.invoices ==>
      s'.invoices[id].companyId == s.invoices[id].companyId && InvoiceDocument(s'.invoices[id]) == InvoiceDocument(s.invoices[id])
    ensures ListsCompany(s', companyId, invoiceIds, noteIds)
    ensures CompanyDocuments(s', companyId, invoiceIds, noteIds) == CompanyDocuments(s, companyId, invoiceIds, noteIds)
  {
    hide InvoiceDocument, NoteDocument;
    assert InvoicesOf(s', companyId) == InvoicesOf(s, companyId) && NotesOf(s', companyId) == NotesOf(s, companyId);
    hide Lists, InvoicesOf, NotesOf;
    DocumentsListed(s, companyId, invoiceIds, noteIds);
    DocumentsListed(s', companyId, invoiceIds, noteIds);
    assert Sellings(s', invoiceIds) == Sellings(s, invoiceIds) && Creditings(s', noteIds) == Creditings(s, noteIds);
  }

  lemma {:induction false} PaidDocument(s: Store, id: Id, amount: real)
    requires Payable(s, id, amount)
    ensures InvoiceDocument(PaidRow(s, id, amount)) == InvoiceDocument(s.invoices[id])
    ensures PaidRow(s, id, amount).companyId == s.invoices[id].companyId
  {
    hide BucketsOf, AtMost, Exactly, PaidOn;
  }

  /** Receiving money changes no report of any period: what was a report stays one, and nothing else becomes one. */
  lemma {:induction false} PaymentChangesNoReport(s: Store, id: Id, amount: real, paidOn: Date, reference: Option<string>,
                                                  companyId: Id, invoiceIds: seq<Id>, noteIds: seq<Id>, r: VatReport, cur: Currency, p: Period)
    requires RecordPayment(s, id, amount, paidOn, reference).Ok? && ListsCompany(s, companyId, invoiceIds, noteIds)
    ensures var s' := RecordPayment(s, id, amount, paidOn, reference).value;
            && ListsCompany(s', companyId, invoiceIds, noteIds)
            && (IsReport(r, CompanyDocuments(s', companyId, invoiceIds, noteIds), cur, p)
                <==> IsReport(r, CompanyDocuments(s, companyId, invoiceIds, noteIds), cur, p))
  {
    hide *;
    PaymentAcceptedIff(s, id, amount, paidOn, reference);
    PayableThere(s, id, amount);
    PaymentEffect(s, id, amount, paidOn, reference);
    PaidDocument(s, id, amount);
    var s' := RecordPayment(s, id, amount, paidOn, reference).value;
    assert s'.invoices.Keys == s.invoices.Keys;
    SameDocuments(s, s', companyId, invoiceIds, noteIds);
  }

  lemma {:induction false} PayableThere(s: Store, id: Id, amount: real)
    requires Payable(s, id, amount)
    ensures id in s.invoices
  {
  }

  /** A draft, or an invoice voided without a credit note, adds nothing to any report, whatever its lines. */
  lemma {:induction false} NothingSupplied(front: seq<Document>, inv: Invoice, back: seq<Document>, r: VatReport, cur: Currency, p: Period)
    requires inv.status == Draft || (inv.status == Voided && inv.voidedBy == None)
    ensures IsReport(r, front + [InvoiceDocument(inv)] + back, cur, p) <==> IsReport(r, front + back, cur, p)
  {
    hide *;
    var d := InvoiceDocument(inv);
    NotDeclared(inv, p);
    forall m ensures Tally(front + [d] + back, m, cur, p) == Tally(front + back, m, cur, p) {
      TallyAround(front, d, back, m, cur, p);
      TallySnoc(front + back, d, m, cur, p);
      PlusNothing(Tally(front + back, m, cur, p));
    }
    SaidAlike(front + [d] + back, front + back, r, cur, p);
  }

  lemma {:induction false} NotDeclared(inv: Invoice, p: Period)
    requires inv.status == Draft || (inv.status == Voided && inv.voidedBy == None)
    ensures !Dated(InvoiceDocument(inv), p)
  {
    hide InPeriod, BucketsOf;
  }

  lemma {:induction false} PlusNothing(a: Amounts)
    ensures Plus(a, NOTHING) == a
  {
  }

  lemma {:induction false} SaidAlike(a: seq<Document>, b: seq<Document>, r: VatReport, cur: Currency, p: Period)
    requires forall m :: Tally(a, m, cur, p) == Tally(b, m, cur, p)
    ensures IsReport(r, a, cur, p) <==> IsReport(r, b, cur, p)
  {
    hide Tally, StrictlySorted, LineKeys, LineFor, AmountsAt;
  }

  // ------------------------------------------------------------------ the boxes of the return

  /** Which box of the return a line goes to, box by box. */
  lemma {:induction false} GridsOf(k: VatKey)
    ensures GridFor(k) == Some("00") <==> k == VatKey(Standard, 0.0) || k.category == Zero
    ensures GridFor(k) == Some("01") <==> k == VatKey(Standard, 6.0)
    ensures GridFor(k) == Some("02") <==> k == VatKey(Standard, 12.0)
    ensures GridFor(k) == Some("03") <==> k == VatKey(Standard, 21.0)
    ensures GridFor(k) == Some("44") <==> k.category == ReverseCharge
    ensures GridFor(k) == Some("46") <==> k.category == IntraEu
    ensures GridFor(k) == Some("47") <==> k.category == Export
    ensures GridFor(k).Some? ==> GridFor(k).value in {"00", "01", "02", "03", "44", "46", "47"}
  {
    assert "00"[1] != "01"[1] && "00"[1] != "02"[1] && "00"[1] != "03"[1] && "01"[1] != "02"[1] && "01"[1] != "03"[1] && "02"[1] != "03"[1];
    assert "44"[1] != "46"[1] && "44"[1] != "47"[1] && "46"[1] != "47"[1];
    assert "44"[0] != "00"[0] && "46"[0] != "00"[0] && "47"[0] != "00"[0] && "44"[0] != "01"[0] && "44"[0] != "02"[0] && "44"[0] != "03"[0];
  }
}
