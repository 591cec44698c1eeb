// core/services/reporting_service.py:17-31, 419-510: the output VAT of a declaration period.
module VatReports {
  import opened Common
  import opened Grouping
  import opened Money
  import opened Lines
  import opened Calendar
  import opened CurrencyMath
  import opened Store
  import opened Periods

  /** `_is_declarable`. A draft voided by a credit note is declarable: the status hides that it was
      never issued. */
  predicate Declarable(invoice: Invoice) {
    match invoice.status
    case Draft => false
    case Voided => invoice.voidedBy.Some?
    case _ => true
  }

  /** `_grid_for`. */
  function GridFor(k: VatKey): Option<string> {
    match k.category
    case Standard =>
      if k.rate == 0.0 then Some("00")
      else if k.rate == 6.0 then Some("01")
      else if k.rate == 12.0 then Some("02")
      else if k.rate == 21.0 then Some("03")
      else None
    case ReverseCharge => Some("44")
    case IntraEu => Some("46")
    case Export => Some("47")
    case Zero => Some("00")
    case _ => None
  }

  // ------------------------------------------------------------------ what a document contributes

  /** The four columns of the report. */
  datatype Amounts = Amounts(invoicedBase: int, invoicedVat: int, creditedBase: int, creditedVat: int)

  const NOTHING := Amounts(0, 0, 0, 0)

  function Plus(a: Amounts, b: Amounts): Amounts {
    Amounts(a.invoicedBase + b.invoicedBase, a.invoicedVat + b.invoicedVat,
            a.creditedBase + b.creditedBase, a.creditedVat + b.creditedVat)
  }

  datatype Side = Invoiced | Credited

  /** An invoice or a credit note as the report reads it. */
  datatype Document = Document(side: Side, date: Date, declarable: bool, currency: Currency, buckets: seq<VatBucket>)

  function InvoiceDocument(inv: Invoice): Document {
    Document(Invoiced, inv.issueDate, Declarable(inv), inv.currency, BucketsOf(inv.lines, inv.discount, inv.currency))
  }

  function NoteDocument(note: CreditNote): Document {
    Document(Credited, note.issueDate, true, note.currency, BucketsOf(AsInvoiceLines(note.lines), None, note.currency))
  }

  function DocumentsOf(invoices: seq<Invoice>, notes: seq<CreditNote>): (r: seq<Document>)
    ensures |r| == |invoices| + |notes|
  {
    seq(|invoices|, i requires 0 <= i < |invoices| => InvoiceDocument(invoices[i]))
    + seq(|notes|, i requires 0 <= i < |notes| => NoteDocument(notes[i]))
  }

  function Entry(side: Side, b: VatBucket): Amounts {
    if side.Invoiced? then Amounts(b.taxableBase, b.vatAmount, 0, 0) else Amounts(0, 0, b.taxableBase, b.vatAmount)
  }

  /** What a list of buckets puts under one key. */
  function Under(side: Side, buckets: seq<VatBucket>, k: VatKey): Amounts {
    if buckets == [] then NOTHING
    else
      var last := buckets[|buckets| - 1];
      Plus(Under(side, buckets[..|buckets| - 1], k), if last.key == k then Entry(side, last) else NOTHING)
  }

  /** What it puts into the report altogether. */
  function InAll(side: Side, buckets: seq<VatBucket>): Amounts {
    if buckets == [] then NOTHING
    else Plus(InAll(side, buckets[..|buckets| - 1]), Entry(side, buckets[|buckets| - 1]))
  }

  predicate Dated(d: Document, p: Period) {
    d.declarable && InPeriod(d.date, p)
  }

  /** What one can ask a report: the amounts under a key, all amounts together, or how many invoices
      and credit notes it counts and how many documents of other currencies it leaves out. */
  datatype Measure = Key(k: VatKey) | Everything | Counting

  function Weight(m: Measure, d: Document, cur: Currency): Amounts {
    match m
    case Key(k) => if d.currency == cur then Under(d.side, d.buckets, k) else NOTHING
    case Everything => if d.currency == cur then InAll(d.side, d.buckets) else NOTHING
    case Counting =>
      if d.currency != cur then Amounts(0, 0, 1, 0) else if d.side.Invoiced? then Amounts(1, 0, 0, 0) else Amounts(0, 1, 0, 0)
  }

  /** The specification: a measure adds up over the declarable documents of the period. */
  function Tally(docs: seq<Document>, m: Measure, cur: Currency, p: Period): Amounts {
    if docs == [] then NOTHING
    else
      var last := docs[|docs| - 1];
      Plus(Tally(docs[..|docs| - 1], m, cur, p), if Dated(last, p) then Weight(m, last, cur) else NOTHING)
  }

  lemma {:induction false} TallySnoc(docs: seq<Document>, d: Document, m: Measure, cur: Currency, p: Period)
    ensures Tally(docs + [d], m, cur, p) == Plus(Tally(docs, m, cur, p), if Dated(d, p) then Weight(m, d, cur) else NOTHING)
  {
    assert (docs + [d])[..|docs|] == docs;
  }

  // ------------------------------------------------------------------ vat_report

  datatype VatReportLine = VatReportLine(key: VatKey, amounts: Amounts, netBase: int, netVat: int, grid: Option<string>)

  datatype VatReport = VatReport(
    period: Period, lines: seq<VatReportLine>, total: Amounts, netBase: int, netVat: int,
    invoiceCount: nat, creditNoteCount: nat, skipped: nat)

  function LineFor(k: VatKey, a: Amounts): VatReportLine {
    VatReportLine(k, a, a.invoicedBase - a.creditedBase, a.invoicedVat - a.creditedVat, GridFor(k))
  }

  /** What a reader finds under a key: the amounts of its line, or nothing when there is no line. */
  function AmountsAt(lines: seq<VatReportLine>, k: VatKey): Amounts {
    if lines == [] then NOTHING
    else if lines[|lines| - 1].key == k then lines[|lines| - 1].amounts
    else AmountsAt(lines[..|lines| - 1], k)
  }

  function LineKeys(lines: seq<VatReportLine>): (r: seq<VatKey>)
    ensures |r| == |lines|
  {
    seq(|lines|, i requires 0 <= i < |lines| => lines[i].key)
  }

  /** Everything a report of the period has to say. */
  ghost predicate IsReport(r: VatReport, docs: seq<Document>, cur: Currency, p: Period) {
    && r.period == p
    && StrictlySorted(LineKeys(r.lines))
    && (forall i :: 0 <= i < |r.lines| ==> r.lines[i] == LineFor(r.lines[i].key, r.lines[i].amounts))
    && (forall k :: AmountsAt(r.lines, k) == Tally(docs, Key(k), cur, p))
    && r.total == Tally(docs, Everything, cur, p)
    && r.netBase == r.total.invoicedBase - r.total.creditedBase
    && r.netVat == r.total.invoicedVat - r.total.creditedVat
    && Amounts(r.invoiceCount, r.creditNoteCount, r.skipped, 0) == Tally(docs, Counting, cur, p)
  }

  /** The dict `acc`: slots per key, and the order in which the keys came. */
  datatype Slots = Slots(order: seq<VatKey>, at: map<VatKey, Amounts>)

  ghost predicate SlotsOk(acc: Slots) {
    && Distinct(acc.order)
    && (forall k :: k in acc.order <==> k in acc.at)
  }

  function SlotAt(acc: Slots, k: VatKey): Amounts {
    if k in acc.at then acc.at[k] else NOTHING
  }

  /** `_add`. */
  function Add(acc: Slots, k: VatKey, a: Amounts): Slots {
    Slots(if k in acc.at then acc.order else acc.order + [k], acc.at[k := Plus(SlotAt(acc, k), a)])
  }

  function TotalOver(keys: seq<VatKey>, acc: Slots): Amounts {
    if keys == [] then NOTHING
    else Plus(TotalOver(keys[..|keys| - 1], acc), SlotAt(acc, keys[|keys| - 1]))
  }

  lemma {:induction false} AddedSlot(acc: Slots, k: VatKey, a: Amounts, j: VatKey)
    ensures SlotAt(Add(acc, k, a), j) == if j == k then Plus(SlotAt(acc, j), a) else SlotAt(acc, j)
  {
    hide Plus;
  }

  lemma {:induction false} TotalSnoc(keys: seq<VatKey>, k: VatKey, acc: Slots)
    ensures TotalOver(keys + [k], acc) == Plus(TotalOver(keys, acc), SlotAt(acc, k))
  {
    hide Plus, SlotAt;
    assert (keys + [k])[..|keys|] == keys;
  }

  lemma {:induction false} TotalUnmoved(keys: seq<VatKey>, acc: Slots, k: VatKey, a: Amounts)
    requires forall i :: 0 <= i < |keys| ==> keys[i] != k
    ensures TotalOver(keys, Add(acc, k, a)) == TotalOver(keys, acc)
  {
    hide Plus, Add, SlotAt;
    if keys != [] {
      var n := |keys| - 1;
      TotalUnmoved(keys[..n], acc, k, a);
      AddedSlot(acc, k, a, keys[n]);
    }
  }

  lemma {:induction false} TotalMoved(keys: seq<VatKey>, acc: Slots, j: nat, a: Amounts)
    requires Distinct(keys) && j < |keys|
    ensures TotalOver(keys, Add(acc, keys[j], a)) == Plus(TotalOver(keys, acc), a)
  {
    var n, k := |keys| - 1, keys[j];
    assert j != n ==> keys[n] != k;
    assert Distinct(keys[..n]) && forall i :: 0 <= i < n ==> (keys[i] == k ==> i == j);
    hide *;
    assert keys == keys[..n] + [keys[n]];
    TotalSnoc(keys[..n], keys[n], acc);
    TotalSnoc(keys[..n], keys[n], Add(acc, k, a));
    AddedSlot(acc, k, a, keys[n]);
    if j == n {
      TotalUnmoved(keys[..n], acc, k, a);
      PlusAssociates(TotalOver(keys[..n], acc), SlotAt(acc, k), a);
    } else {
      TotalMoved(keys[..n], acc, j, a);
      PlusExchange(TotalOver(keys[..n], acc), a, SlotAt(acc, keys[n]));
    }
  }

  lemma {:induction false} PlusExchange(a: Amounts, b: Amounts, c: Amounts)
    ensures Plus(Plus(a, b), c) == Plus(Plus(a, c), b)
  {
  }

  lemma {:induction false} AddKeepsSlots(acc: Slots, k: VatKey, a: Amounts)
    requires SlotsOk(acc)
    ensures SlotsOk(Add(acc, k, a))
  {
    hide Plus, SlotAt;
  }

  lemma {:induction false} AddOrder(acc: Slots, k: VatKey, a: Amounts)
    requires SlotsOk(acc)
    ensures Add(acc, k, a).order == if k in acc.order then acc.order else acc.order + [k]
    ensures Distinct(acc.order) && (k !in acc.order ==> SlotAt(acc, k) == NOTHING)
  {
    hide Plus;
  }

  lemma {:induction false} AddTotal(acc: Slots, k: VatKey, a: Amounts)
    requires SlotsOk(acc)
    ensures TotalOver(Add(acc, k, a).order, Add(acc, k, a)) == Plus(TotalOver(acc.order, acc), a)
  {
    PlusSwap(NOTHING, a, NOTHING, NOTHING);
    hide *;
    AddOrder(acc, k, a);
    if k in acc.order {
      var j :| 0 <= j < |acc.order| && acc.order[j] == k;
      TotalMoved(acc.order, acc, j, a);
    } else {
      TotalSnoc(acc.order, k, Add(acc, k, a));
      TotalUnmoved(acc.order, acc, k, a);
      AddedSlot(acc, k, a, k);
    }
  }

  /** Adding an amount adds it to its own slot, to no other, and to the total. */
  lemma {:induction false} AddEffect(acc: Slots, k: VatKey, a: Amounts)
    requires SlotsOk(acc)
    ensures SlotsOk(Add(acc, k, a))
    ensures forall j :: SlotAt(Add(acc, k, a), j) == if j == k then Plus(SlotAt(acc, j), a) else SlotAt(acc, j)
    ensures TotalOver(Add(acc, k, a).order, Add(acc, k, a)) == Plus(TotalOver(acc.order, acc), a)
  {
    hide *;
    forall j ensures SlotAt(Add(acc, k, a), j) == if j == k then Plus(SlotAt(acc, j), a) else SlotAt(acc, j) {
      AddedSlot(acc, k, a, j);
    }
    AddKeepsSlots(acc, k, a);
    AddTotal(acc, k, a);
  }

  /** What adding a list of buckets has done to the slots. */
  ghost predicate Added(acc: Slots, side: Side, buckets: seq<VatBucket>, r: Slots) {
    && SlotsOk(r)
    && (forall k :: SlotAt(r, k) == Plus(SlotAt(acc, k), Under(side, buckets, k)))
    && TotalOver(r.order, r) == Plus(TotalOver(acc.order, acc), InAll(side, buckets))
  }

  lemma {:induction false} AddedNothing(acc: Slots, side: Side)
    requires SlotsOk(acc)
    ensures Added(acc, side, [], acc)
  {
    hide SlotsOk, SlotAt, TotalOver;
  }

  lemma {:induction false} AddedNext(acc: Slots, side: Side, buckets: seq<VatBucket>, r: Slots, b: VatBucket)
    requires Added(acc, side, buckets, r)
    ensures Added(acc, side, buckets + [b], Add(r, b.key, Entry(side, b)))
  {
    hide SlotAt, TotalOver, Add, SlotsOk, Entry;
    assert (buckets + [b])[..|buckets|] == buckets;
    AddEffect(r, b.key, Entry(side, b));
  }

  /** `for bucket in vat_buckets(...): _add(...)`. */
  method AddBuckets(acc: Slots, side: Side, buckets: seq<VatBucket>) returns (r: Slots)
    requires SlotsOk(acc)
    ensures Added(acc, side, buckets, r)
  {
    hide Added, SlotsOk, Add;
    r := acc;
    AddedNothing(acc, side);
    for i := 0 to |buckets|
      invariant Added(acc, side, buckets[..i], r)
    {
      AddedNext(acc, side, buckets[..i], r, buckets[i]);
      r := Add(r, buckets[i].key, Entry(side, buckets[i]));
      assert buckets[..i + 1] == buckets[..i] + [buckets[i]];
    }
    assert buckets[..|buckets|] == buckets;
  }

  /** The accumulated slots after some documents say what those documents contribute. */
  ghost predicate Holds(acc: Slots, docs: seq<Document>, cur: Currency, p: Period) {
    && SlotsOk(acc)
    && (forall k :: SlotAt(acc, k) == Tally(docs, Key(k), cur, p))
    && TotalOver(acc.order, acc) == Tally(docs, Everything, cur, p)
  }

  lemma {:induction false} HoldsNext(acc: Slots, docs: seq<Document>, d: Document, cur: Currency, p: Period, after: Slots)
    requires Holds(acc, docs, cur, p)
    requires if Dated(d, p) && d.currency == cur then Added(acc, d.side, d.buckets, after) else after == acc
    ensures Holds(after, docs + [d], cur, p)
  {
    hide SlotAt, TotalOver, SlotsOk, Tally, Dated, Under, InAll;
    forall k ensures SlotAt(after, k) == Tally(docs + [d], Key(k), cur, p) {
      TallySnoc(docs, d, Key(k), cur, p);
    }
    TallySnoc(docs, d, Everything, cur, p);
  }

  /** The slots and the three counts after the first documents of a list. */
  ghost predicate Progress(acc: Slots, invoiceCount: nat, noteCount: nat, skipped: nat,
                           docs: seq<Document>, cur: Currency, p: Period) {
    Holds(acc, docs, cur, p) && Amounts(invoiceCount, noteCount, skipped, 0) == Tally(docs, Counting, cur, p)
  }

  lemma {:induction false} ProgressNext(acc: Slots, ic: nat, nc: nat, skipped: nat, docs: seq<Document>, d: Document,
                                        cur: Currency, p: Period, acc': Slots, ic': nat, nc': nat, skipped': nat)
    requires Progress(acc, ic, nc, skipped, docs, cur, p)
    requires
      if !Dated(d, p) then acc' == acc && ic' == ic && nc' == nc && skipped' == skipped
      else if d.currency != cur then acc' == acc && ic' == ic && nc' == nc && skipped' == skipped + 1
      else
        && Added(acc, d.side, d.buckets, acc') && skipped' == skipped
        && ic' == ic + (if d.side.Invoiced? then 1 else 0) && nc' == nc + (if d.side.Credited? then 1 else 0)
    ensures Progress(acc', ic', nc', skipped', docs + [d], cur, p)
  {
    hide Holds, Tally, Dated, Added;
    TallySnoc(docs, d, Counting, cur, p);
    HoldsNext(acc, docs, d, cur, p, acc');
  }

  lemma {:induction false} ProgressSlots(acc: Slots, ic: nat, nc: nat, skipped: nat, docs: seq<Document>, cur: Currency, p: Period)
    requires Progress(acc, ic, nc, skipped, docs, cur, p)
    ensures SlotsOk(acc)
  {
  }

  lemma {:induction false} NoProgress(cur: Currency, p: Period)
    ensures Progress(Slots([], map[]), 0, 0, 0, [], cur, p)
  {
  }

  lemma {:induction false} DocumentsAre(invoices: seq<Invoice>, notes: seq<CreditNote>)
    ensures var docs := DocumentsOf(invoices, notes);
            && docs[..|invoices|] == DocumentsOf(invoices, [])
            && (forall i {:trigger invoices[i]} :: 0 <= i < |invoices| ==> docs[i] == InvoiceDocument(invoices[i]))
            && (forall i {:trigger notes[i]} :: 0 <= i < |notes| ==> docs[|invoices| + i] == NoteDocument(notes[i]))
  {
    hide InvoiceDocument, NoteDocument;
  }

  lemma {:induction false} InvoiceRead(inv: Invoice, p: Period)
    ensures var d := InvoiceDocument(inv);
            && (Dated(d, p) <==> Declarable(inv) && InPeriod(inv.issueDate, p))
            && d.side == Invoiced && d.currency == inv.currency && d.buckets == BucketsOf(inv.lines, inv.discount, inv.currency)
  {
    hide Declarable, InPeriod, BucketsOf;
  }

  lemma {:induction false} NoteRead(note: CreditNote, p: Period)
    ensures var d := NoteDocument(note);
            && (Dated(d, p) <==> InPeriod(note.issueDate, p))
            && d.side == Credited && d.currency == note.currency
            && d.buckets == BucketsOf(AsInvoiceLines(note.lines), None, note.currency)
  {
    hide InPeriod, BucketsOf, AsInvoiceLines;
  }

  method AccumulateInvoices(invoices: seq<Invoice>, cur: Currency, p: Period)
    returns (acc: Slots, count: nat, skipped: nat)
    ensures Progress(acc, count, 0, skipped, DocumentsOf(invoices, []), cur, p)
  {
    hide *;
    DocumentsAre(invoices, []);
    ghost var docs := DocumentsOf(invoices, []);
    acc, count, skipped := Slots([], map[]), 0, 0;
    NoProgress(cur, p);
    for i := 0 to |invoices|
      invariant Progress(acc, count, 0, skipped, docs[..i], cur, p)
    {
      var inv := invoices[i];
      ghost var done, d := docs[..i], InvoiceDocument(inv);
      assert docs[..i + 1] == done + [d];
      ghost var acc0, count0, skipped0 := acc, count, skipped;
      ProgressSlots(acc, count, 0, skipped, done, cur, p);
      InvoiceRead(inv, p);
      if Declarable(inv) && InPeriod(inv.issueDate, p) {
        if inv.currency == cur {
          var buckets := VatBuckets(inv.lines, inv.discount, inv.currency);
          acc := AddBuckets(acc, Invoiced, buckets);
          count := count + 1;
        } else {
          skipped := skipped + 1;
        }
      }
      ProgressNext(acc0, count0, 0, skipped0, done, d, cur, p, acc, count, 0, skipped);
    }
    assert docs[..|invoices|] == docs;
  }

  method AccumulateNotes(invoices: seq<Invoice>, notes: seq<CreditNote>, cur: Currency, p: Period,
                         start: Slots, invoiceCount: nat, startSkipped: nat)
    returns (acc: Slots, count: nat, skipped: nat)
    requires Progress(start, invoiceCount, 0, startSkipped, DocumentsOf(invoices, []), cur, p)
    ensures Progress(acc, invoiceCount, count, skipped, DocumentsOf(invoices, notes), cur, p)
  {
    hide *;
    DocumentsAre(invoices, notes);
    ghost var docs, m := DocumentsOf(invoices, notes), |invoices|;
    acc, count, skipped := start, 0, startSkipped;
    for i := 0 to |notes|
      invariant Progress(acc, invoiceCount, count, skipped, docs[..m + i], cur, p)
    {
      var note := notes[i];
      ghost var done, d := docs[..m + i], NoteDocument(note);
      assert docs[..m + (i + 1)] == done + [d];
      ghost var acc0, count0, skipped0 := acc, count, skipped;
      ProgressSlots(acc, invoiceCount, count, skipped, done, cur, p);
      NoteRead(note, p);
      if InPeriod(note.issueDate, p) {
        if note.currency == cur {
          var buckets := VatBuckets(AsInvoiceLines(note.lines), None, note.currency);
          acc := AddBuckets(acc, Credited, buckets);
          count := count + 1;
        } else {
          skipped := skipped + 1;
        }
      }
      ProgressNext(acc0, invoiceCount, count0, skipped0, done, d, cur, p, acc, invoiceCount, count, skipped);
    }
    assert docs[..m + |notes|] == docs;
  }

  function LinesOver(keys: seq<VatKey>, acc: Slots): (r: seq<VatReportLine>)
    ensures |r| == |keys|
  {
    seq(|keys|, i requires 0 <= i < |keys| => LineFor(keys[i], SlotAt(acc, keys[i])))
  }

  /** The report lines, in the order of the sorted keys, and the running totals. */
  method MakeLines(acc: Slots) returns (lines: seq<VatReportLine>, total: Amounts)
    requires SlotsOk(acc)
    ensures StrictlySorted(LineKeys(lines))
    ensures forall i :: 0 <= i < |lines| ==> lines[i] == LineFor(lines[i].key, lines[i].amounts)
    ensures forall k :: AmountsAt(lines, k) == SlotAt(acc, k)
    ensures total == TotalOver(acc.order, acc)
  {
    hide SortKeys, LineFor, KeyBefore, SlotAt, SlotsOk, StrictlySorted, TotalOver, AmountsAt, Plus;
    var keys := SortKeys(acc.order);
    lines, total := [], NOTHING;
    NoTotal(acc);
    for i := 0 to |keys|
      invariant lines == LinesOver(keys[..i], acc)
      invariant total == TotalOver(keys[..i], acc)
    {
      var a := SlotAt(acc, keys[i]);
      TotalOneMore(keys, i, acc);
      assert LinesOver(keys[..i + 1], acc) == LinesOver(keys[..i], acc) + [LineFor(keys[i], a)];
      lines := lines + [LineFor(keys[i], a)];
      total := Plus(total, a);
    }
    assert keys[..|keys|] == keys;
    SortedKeysOf(acc);
    SortedTotal(acc.order, acc);
    LinesMean(keys, acc);
  }

  lemma {:induction false} NoTotal(acc: Slots)
    ensures TotalOver([], acc) == NOTHING
  {
  }

  lemma {:induction false} TotalOneMore(keys: seq<VatKey>, i: nat, acc: Slots)
    requires i < |keys|
    ensures TotalOver(keys[..i + 1], acc) == Plus(TotalOver(keys[..i], acc), SlotAt(acc, keys[i]))
  {
    assert keys[..i + 1][..i] == keys[..i];
  }

  lemma {:induction false} LinesMean(keys: seq<VatKey>, acc: Slots)
    requires StrictlySorted(keys) && forall k :: k !in keys ==> SlotAt(acc, k) == NOTHING
    ensures var lines := LinesOver(keys, acc);
            && StrictlySorted(LineKeys(lines))
            && (forall i :: 0 <= i < |lines| ==> lines[i] == LineFor(lines[i].key, lines[i].amounts))
            && forall k :: AmountsAt(lines, k) == SlotAt(acc, k)
  {
    hide StrictlySorted, SlotAt, GridFor, AmountsAt;
    var lines := LinesOver(keys, acc);
    assert LineKeys(lines) == keys;
    LinesFound(lines, keys, acc);
  }

  lemma {:induction false} SortedKeysOf(acc: Slots)
    requires SlotsOk(acc)
    ensures StrictlySorted(SortKeys(acc.order))
    ensures forall k :: k !in SortKeys(acc.order) ==> SlotAt(acc, k) == NOTHING
  {
    SortKeysSorted(acc.order);
    hide KeyBefore, SortKeys;
    forall k | k !in SortKeys(acc.order) ensures SlotAt(acc, k) == NOTHING {
      assert k !in multiset(SortKeys(acc.order));
    }
  }

  lemma {:induction false} LinesFound(lines: seq<VatReportLine>, keys: seq<VatKey>, acc: Slots)
    requires |lines| == |keys| && forall j :: 0 <= j < |keys| ==> lines[j] == LineFor(keys[j], SlotAt(acc, keys[j]))
    ensures forall k :: AmountsAt(lines, k) == if k in keys then SlotAt(acc, k) else NOTHING
  {
    if lines != [] {
      var n := |lines| - 1;
      LinesFound(lines[..n], keys[..n], acc);
      forall k ensures AmountsAt(lines, k) == if k in keys then SlotAt(acc, k) else NOTHING {
        assert k in keys <==> k in keys[..n] || k == keys[n];
      }
    }
  }

  lemma {:induction false} SortedTotal(keys: seq<VatKey>, acc: Slots)
    ensures TotalOver(SortKeys(keys), acc) == TotalOver(keys, acc)
  {
    if keys != [] {
      var n := |keys| - 1;
      SortedTotal(keys[..n], acc);
      InsertedTotal(SortKeys(keys[..n]), keys[n], acc);
    }
  }

  lemma {:induction false} InsertedTotal(keys: seq<VatKey>, k: VatKey, acc: Slots)
    ensures TotalOver(InsertKey(keys, k), acc) == Plus(TotalOver(keys, acc), SlotAt(acc, k))
  {
    if keys == [] {
      assert TotalOver([k], acc) == Plus(TotalOver([k][..0], acc), SlotAt(acc, k));
    } else {
      var n := |keys| - 1;
      if KeyBefore(keys[n], k) {
        assert (keys + [k])[..|keys|] == keys;
      } else {
        InsertedTotal(keys[..n], k, acc);
        var r := InsertKey(keys[..n], k);
        assert (r + [keys[n]])[..|r|] == r;
      }
    }
  }

  function ListedInvoices(s: Store, ids: seq<Id>): (r: seq<Invoice>)
    requires forall i :: 0 <= i < |ids| ==> ids[i] in s.invoices
    ensures |r| == |ids|
  {
    seq(|ids|, i requires 0 <= i < |ids| => s.invoices[ids[i]])
  }

  function ListedNotes(s: Store, ids: seq<Id>): (r: seq<CreditNote>)
    requires forall i :: 0 <= i < |ids| ==> ids[i] in s.notes
    ensures |r| == |ids|
  {
    seq(|ids|, i requires 0 <= i < |ids| => s.notes[ids[i]])
  }

  /** Every invoice and credit note of the company, each once, in the order the repositories list them. */
  ghost predicate ListsCompany(s: Store, companyId: Id, invoiceIds: seq<Id>, noteIds: seq<Id>) {
    Lists(invoiceIds, InvoicesOf(s, companyId)) && Lists(noteIds, NotesOf(s, companyId))
  }

  lemma {:induction false} ListedExist(s: Store, companyId: Id, invoiceIds: seq<Id>, noteIds: seq<Id>)
    requires ListsCompany(s, companyId, invoiceIds, noteIds)
    ensures forall i :: 0 <= i < |invoiceIds| ==> invoiceIds[i] in s.invoices
    ensures forall i :: 0 <= i < |noteIds| ==> noteIds[i] in s.notes
  {
    assert forall i :: 0 <= i < |invoiceIds| ==> invoiceIds[i] in invoiceIds;
    assert forall i :: 0 <= i < |noteIds| ==> noteIds[i] in noteIds;
  }

  ghost function CompanyDocuments(s: Store, companyId: Id, invoiceIds: seq<Id>, noteIds: seq<Id>): seq<Document>
    requires ListsCompany(s, companyId, invoiceIds, noteIds)
  {
    ListedExist(s, companyId, invoiceIds, noteIds);
    DocumentsOf(ListedInvoices(s, invoiceIds), ListedNotes(s, noteIds))
  }

  /** `vat_report`, over the company's invoices and credit notes. */
  method MakeVatReport(s: Store, companyId: Id, period: string, invoiceIds: seq<Id>, noteIds: seq<Id>)
    returns (r: Result<VatReport>)
    requires ListsCompany(s, companyId, invoiceIds, noteIds)
    ensures match ParsePeriod(period)
      case Err(e) => r == Err(e)
      case Ok(p) =>
        if companyId !in s.companies then r == Err(NotFound)
        else r.Ok? && IsReport(r.value, CompanyDocuments(s, companyId, invoiceIds, noteIds), s.companies[companyId].defaultCurrency, p)
  {
    var parsed := ParsePeriod(period);
    if parsed.Err? {
      return Err(parsed.error);
    }
    if companyId !in s.companies {
      return Err(NotFound);
    }
    ListedExist(s, companyId, invoiceIds, noteIds);
    hide *;
    var invoices, notes := ListedInvoices(s, invoiceIds), ListedNotes(s, noteIds);
    var p, cur := parsed.value, s.companies[companyId].defaultCurrency;
    var acc, invoiceCount, skipped := AccumulateInvoices(invoices, cur, p);
    var noteCount;
    acc, noteCount, skipped := AccumulateNotes(invoices, notes, cur, p, acc, invoiceCount, skipped);
    ProgressSlots(acc, invoiceCount, noteCount, skipped, DocumentsOf(invoices, notes), cur, p);
    var lines, total := MakeLines(acc);
    r := Ok(VatReport(p, lines, total, total.invoicedBase - total.creditedBase, total.invoicedVat - total.creditedVat,
                      invoiceCount, noteCount, skipped));
    ReportMade(acc, DocumentsOf(invoices, notes), cur, r.value);
    AllDocuments(s, companyId, invoiceIds, noteIds);
  }

  lemma {:induction false} ReportMade(acc: Slots, docs: seq<Document>, cur: Currency, r: VatReport)
    requires Progress(acc, r.invoiceCount, r.creditNoteCount, r.skipped, docs, cur, r.period)
    requires StrictlySorted(LineKeys(r.lines)) && forall i :: 0 <= i < |r.lines| ==> r.lines[i] == LineFor(r.lines[i].key, r.lines[i].amounts)
    requires (forall k :: AmountsAt(r.lines, k) == SlotAt(acc, k)) && r.total == TotalOver(acc.order, acc)
    requires r.netBase == r.total.invoicedBase - r.total.creditedBase && r.netVat == r.total.invoicedVat - r.total.creditedVat
    ensures IsReport(r, docs, cur, r.period)
  {
    hide Tally, StrictlySorted, LineKeys, LineFor, AmountsAt, SlotAt, TotalOver, SlotsOk;
  }

  lemma {:induction false} AllDocuments(s: Store, companyId: Id, invoiceIds: seq<Id>, noteIds: seq<Id>)
    requires ListsCompany(s, companyId, invoiceIds, noteIds)
    requires forall i :: 0 <= i < |invoiceIds| ==> invoiceIds[i] in s.invoices
    requires forall i :: 0 <= i < |noteIds| ==> noteIds[i] in s.notes
    ensures CompanyDocuments(s, companyId, invoiceIds, noteIds) == DocumentsOf(ListedInvoices(s, invoiceIds), ListedNotes(s, noteIds))
  {
  }

  // ------------------------------------------------------------------ the order of the documents

  lemma {:induction false} TallyAppend(a: seq<Document>, b: seq<Document>, m: Measure, cur: Currency, p: Period)
    ensures Tally(a + b, m, cur, p) == Plus(Tally(a, m, cur, p), Tally(b, m, cur, p))
  {
    if b == [] {
      TallyEmpty(m, cur, p);
      PlusSwap(Tally(a, m, cur, p), NOTHING, NOTHING, NOTHING);
      hide *;
      assert a + b == a;
    } else {
      hide *;
      var n := |b| - 1;
      assert a + b == (a + b[..n]) + [b[n]] && b == b[..n] + [b[n]];
      TallyAppend(a, b[..n], m, cur, p);
      TallySnoc(a + b[..n], b[n], m, cur, p);
      TallySnoc(b[..n], b[n], m, cur, p);
      PlusAssociates(Tally(a, m, cur, p), Tally(b[..n], m, cur, p), if Dated(b[n], p) then Weight(m, b[n], cur) else NOTHING);
    }
  }

  lemma {:induction false} TallyEmpty(m: Measure, cur: Currency, p: Period)
    ensures Tally([], m, cur, p) == NOTHING
  {
  }

  lemma {:induction false} PlusAssociates(a: Amounts, b: Amounts, c: Amounts)
    ensures Plus(Plus(a, b), c) == Plus(a, Plus(b, c))
  {
  }

  lemma {:induction false} TallyAround(front: seq<Document>, d: Document, back: seq<Document>, m: Measure, cur: Currency, p: Period)
    ensures Tally(front + [d] + back, m, cur, p) == Tally(front + back + [d], m, cur, p)
  {
    hide Tally, Dated, Weight;
    TallyAppend(front + [d], back, m, cur, p);
    TallyAppend(front, [d], m, cur, p);
    TallyAppend(front + back, [d], m, cur, p);
    TallyAppend(front, back, m, cur, p);
  }

  /** A tally does not depend on the order of the documents. */
  lemma {:induction false} TallyPermuted(a: seq<Document>, b: seq<Document>, m: Measure, cur: Currency, p: Period)
    requires multiset(a) == multiset(b)
    ensures Tally(a, m, cur, p) == Tally(b, m, cur, p)
  {
    hide *;
    if a == [] {
      assert |b| == |multiset(b)| == 0;
    } else {
      var init, d := a[..|a| - 1], a[|a| - 1];
      assert a == init + [d];
      assert d in multiset(b);
      var front, back := SplitAt(b, d);
      WithoutOne(init, d, front, back);
      TallyPermuted(init, front + back, m, cur, p);
      TallyAround(front, d, back, m, cur, p);
      TallySnoc(init, d, m, cur, p);
      TallySnoc(front + back, d, m, cur, p);
    }
  }

  lemma {:induction false} ListedPermuted(s: Store, companyId: Id, invoices: seq<Id>, notes: seq<Id>, invoices': seq<Id>, notes': seq<Id>)
    requires ListsCompany(s, companyId, invoices, notes) && ListsCompany(s, companyId, invoices', notes')
    ensures multiset(CompanyDocuments(s, companyId, invoices, notes)) == multiset(CompanyDocuments(s, companyId, invoices', notes'))
  {
    hide InvoiceDocument, NoteDocument, Lists, InvoicesOf, NotesOf;
    var none := Document(Invoiced, YMD(1, 1, 1), false, EUR, []);
    var f := (id: Id) => if id in s.invoices then InvoiceDocument(s.invoices[id]) else none;
    var g := (id: Id) => if id in s.notes then NoteDocument(s.notes[id]) else none;
    ListingsAgree(invoices, invoices', InvoicesOf(s, companyId));
    ListingsAgree(notes, notes', NotesOf(s, companyId));
    MappedPermutation(f, invoices, invoices');
    MappedPermutation(g, notes, notes');
    ListedExist(s, companyId, invoices, notes);
    ListedExist(s, companyId, invoices', notes');
    assert CompanyDocuments(s, companyId, invoices, notes) == Mapped(f, invoices) + Mapped(g, notes);
    assert CompanyDocuments(s, companyId, invoices', notes') == Mapped(f, invoices') + Mapped(g, notes');
  }

  /** So what a report has to say is a matter of the company's rows alone: in whatever order the repositories
      list them, a report of one listing is a report of any other. */
  lemma {:induction false} ListingDoesNotMatter(s: Store, companyId: Id, invoices: seq<Id>, notes: seq<Id>, invoices': seq<Id>, notes': seq<Id>,
                                                r: VatReport, cur: Currency, p: Period)
    requires ListsCompany(s, companyId, invoices, notes) && ListsCompany(s, companyId, invoices', notes')
    requires IsReport(r, CompanyDocuments(s, companyId, invoices, notes), cur, p)
    ensures IsReport(r, CompanyDocuments(s, companyId, invoices', notes'), cur, p)
  {
    hide ListsCompany, CompanyDocuments, Tally, StrictlySorted, LineKeys, AmountsAt, LineFor;
    var a, b := CompanyDocuments(s, companyId, invoices, notes), CompanyDocuments(s, companyId, invoices', notes');
    ListedPermuted(s, companyId, invoices, notes, invoices', notes');
    forall m ensures Tally(a, m, cur, p) == Tally(b, m, cur, p) {
      TallyPermuted(a, b, m, cur, p);
    }
  }

  // ------------------------------------------------------------------ additivity

  function SumAmounts(parts: seq<Amounts>): Amounts {
    if parts == [] then NOTHING else Plus(SumAmounts(parts[..|parts| - 1]), parts[|parts| - 1])
  }

  function TallyEach(docs: seq<Document>, m: Measure, cur: Currency, ps: seq<Period>): (r: seq<Amounts>)
    ensures |r| == |ps|
  {
    seq(|ps|, i requires 0 <= i < |ps| => Tally(docs, m, cur, ps[i]))
  }

  lemma {:induction false} EachSnoc(docs: seq<Document>, m: Measure, cur: Currency, ps: seq<Period>)
    requires ps != []
    ensures SumAmounts(TallyEach(docs, m, cur, ps))
         == Plus(SumAmounts(TallyEach(docs, m, cur, ps[..|ps| - 1])), Tally(docs, m, cur, ps[|ps| - 1]))
  {
    assert TallyEach(docs, m, cur, ps)[..|ps| - 1] == TallyEach(docs, m, cur, ps[..|ps| - 1]);
  }

  lemma {:induction false} PlusSwap(a: Amounts, b: Amounts, c: Amounts, d: Amounts)
    ensures Plus(Plus(a, b), Plus(c, d)) == Plus(Plus(a, c), Plus(b, d))
    ensures Plus(a, NOTHING) == a && Plus(NOTHING, b) == b
  {
  }

  lemma {:induction false} DatedMeans(d: Document, p: Period)
    ensures Dated(d, p) == (d.declarable && InPeriod(d.date, p))
  {
  }

  /** One more document counts once in every period that contains its date. */
  lemma {:induction false} SpreadOne(docs: seq<Document>, d: Document, m: Measure, cur: Currency, ps: seq<Period>)
    requires Hits(d.date, ps) <= 1
    ensures SumAmounts(TallyEach(docs + [d], m, cur, ps))
         == Plus(SumAmounts(TallyEach(docs, m, cur, ps)),
                 if d.declarable && Hits(d.date, ps) == 1 then Weight(m, d, cur) else NOTHING)
  {
    hide Weight, InPeriod, Tally, TallyEach, SumAmounts, Plus, Dated;
    var w := Weight(m, d, cur);
    if ps == [] {
      EachEmpty(docs, m, cur);
      EachEmpty(docs + [d], m, cur);
      PlusSwap(NOTHING, w, NOTHING, NOTHING);
    } else {
      var n := |ps| - 1;
      SpreadOne(docs, d, m, cur, ps[..n]);
      TallySnoc(docs, d, m, cur, ps[n]);
      EachSnoc(docs + [d], m, cur, ps);
      EachSnoc(docs, m, cur, ps);
      DatedMeans(d, ps[n]);
      var before, inLast := SumAmounts(TallyEach(docs, m, cur, ps[..n])), Tally(docs, m, cur, ps[n]);
      var x := if d.declarable && Hits(d.date, ps[..n]) == 1 then w else NOTHING;
      var y := if Dated(d, ps[n]) then w else NOTHING;
      PlusSwap(before, x, inLast, y);
      PlusSwap(x, y, NOTHING, NOTHING);
    }
  }

  lemma {:induction false} EachEmpty(docs: seq<Document>, m: Measure, cur: Currency)
    ensures SumAmounts(TallyEach(docs, m, cur, [])) == NOTHING
  {
  }

  lemma {:induction false} TallySplits(docs: seq<Document>, m: Measure, cur: Currency, p: Period, ps: seq<Period>)
    requires Partitions(ps, p)
    ensures Tally(docs, m, cur, p) == SumAmounts(TallyEach(docs, m, cur, ps))
  {
    if docs == [] {
      NothingToSplit(m, cur, ps);
    } else {
      var n := |docs| - 1;
      assert docs == docs[..n] + [docs[n]];
      TallySplits(docs[..n], m, cur, p, ps);
      SpreadOne(docs[..n], docs[n], m, cur, ps);
      hide Weight, InPeriod, SumAmounts, TallyEach;
    }
  }

  lemma {:induction false} NothingToSplit(m: Measure, cur: Currency, ps: seq<Period>)
    ensures SumAmounts(TallyEach([], m, cur, ps)) == NOTHING
  {
    if ps != [] {
      NothingToSplit(m, cur, ps[..|ps| - 1]);
      assert TallyEach([], m, cur, ps)[..|ps| - 1] == TallyEach([], m, cur, ps[..|ps| - 1]);
    }
  }

  function EachAt(parts: seq<VatReport>, k: VatKey): (r: seq<Amounts>)
    ensures |r| == |parts|
  {
    seq(|parts|, i requires 0 <= i < |parts| => AmountsAt(parts[i].lines, k))
  }

  function EachTotal(parts: seq<VatReport>): (r: seq<Amounts>)
    ensures |r| == |parts|
  {
    seq(|parts|, i requires 0 <= i < |parts| => parts[i].total)
  }

  function CountsOf(r: VatReport): Amounts {
    Amounts(r.invoiceCount, r.creditNoteCount, r.skipped, 0)
  }

  function EachCounts(parts: seq<VatReport>): (r: seq<Amounts>)
    ensures |r| == |parts|
  {
    seq(|parts|, i requires 0 <= i < |parts| => CountsOf(parts[i]))
  }

  /** Per (category, rate), in totals, in counts and in what was left out. */
  ghost predicate AddsUp(whole: VatReport, parts: seq<VatReport>) {
    && (forall k :: AmountsAt(whole.lines, k) == SumAmounts(EachAt(parts, k)))
    && whole.total == SumAmounts(EachTotal(parts))
    && CountsOf(whole) == SumAmounts(EachCounts(parts))
  }

  /** Whatever periods partition a period, the report of the whole is the sum of their reports. */
  lemma {:induction false} ReportsAddUp(docs: seq<Document>, cur: Currency, p: Period, ps: seq<Period>,
                                        whole: VatReport, parts: seq<VatReport>)
    requires Partitions(ps, p) && |parts| == |ps|
    requires IsReport(whole, docs, cur, p)
    requires forall i :: 0 <= i < |ps| ==> IsReport(parts[i], docs, cur, ps[i])
    ensures AddsUp(whole, parts)
  {
    hide Tally, Partitions, SumAmounts, AmountsAt;
    forall k ensures AmountsAt(whole.lines, k) == SumAmounts(EachAt(parts, k)) {
      TallySplits(docs, Key(k), cur, p, ps);
      assert EachAt(parts, k) == TallyEach(docs, Key(k), cur, ps);
    }
    TallySplits(docs, Everything, cur, p, ps);
    assert EachTotal(parts) == TallyEach(docs, Everything, cur, ps);
    TallySplits(docs, Counting, cur, p, ps);
    assert EachCounts(parts) == TallyEach(docs, Counting, cur, ps);
  }

  /** The yearly return is the sum of its four quarterly returns, and of its twelve monthly ones. */
  lemma {:induction false} YearAddsUp(docs: seq<Document>, cur: Currency, year: int, whole: VatReport,
                                      quarters: seq<VatReport>, months: seq<VatReport>)
    requires 1 <= year <= 9999 && |quarters| == 4 && |months| == 12
    requires IsReport(whole, docs, cur, Months(year, 1, 12))
    requires forall q :: 0 <= q < 4 ==> IsReport(quarters[q], docs, cur, Months(year, 3 * q + 1, 3 * q + 3))
    requires forall m :: 0 <= m < 12 ==> IsReport(months[m], docs, cur, Months(year, m + 1, m + 1))
    ensures AddsUp(whole, quarters) && AddsUp(whole, months)
  {
    hide IsReport, AddsUp, Partitions, Months;
    YearIsPartitioned(year);
    ReportsAddUp(docs, cur, Months(year, 1, 12), Quarters(year), whole, quarters);
    ReportsAddUp(docs, cur, Months(year, 1, 12), TwelveMonths(year), whole, months);
  }

  // ------------------------------------------------------------------ an invoice and its credit note

  /** Nothing was deducted from the document, on a line or at the foot. */
  predicate NothingDeducted(inv: Invoice) {
    (forall i :: 0 <= i < |inv.lines| ==> LineDiscounts(inv.lines)[i] == 0.0)
    && DocumentDiscount(inv.lines, inv.discount) == 0.0
  }

  function NoteLines(inv: Invoice): seq<InvoiceLine> {
    AsInvoiceLines(MirroredLines(inv.lines))
  }

  /** The note's lines carry the gross amounts under the same keys, and no discount. */
  lemma {:induction false} NoteLinesGross(lines: seq<InvoiceLine>)
    ensures var note := AsInvoiceLines(MirroredLines(lines));
            && |note| == |lines| && KeysOf(note) == KeysOf(lines)
            && NetsPre(note) == Grosses(lines) && DocumentDiscount(note, None) == 0.0
            && forall i :: 0 <= i < |lines| ==> AllocatedNets(note, None)[i] == Grosses(lines)[i]
  {
    hide TotalPre, Share;
    var note := AsInvoiceLines(MirroredLines(lines));
    forall i | 0 <= i < |lines| ensures NetsPre(note)[i] == Grosses(lines)[i] && KeysOf(note)[i] == KeysOf(lines)[i] {
      assert note[i].discount.None? && Gross(note[i]) == Gross(lines[i]);
    }
  }

  lemma {:induction false} UndeductedNets(inv: Invoice)
    requires NothingDeducted(inv)
    ensures AllocatedNets(inv.lines, inv.discount) == Grosses(inv.lines)
  {
    hide TotalPre, Share;
    forall i | 0 <= i < |inv.lines| ensures AllocatedNets(inv.lines, inv.discount)[i] == Grosses(inv.lines)[i] {
      assert LineDiscounts(inv.lines)[i] == 0.0;
    }
  }

  lemma {:induction false} SameRates(lines: seq<InvoiceLine>, nets: seq<real>)
    requires |nets| == |lines|
    ensures VatsOn(AsInvoiceLines(MirroredLines(lines)), nets) == VatsOn(lines, nets)
  {
  }

  lemma {:induction false} SameBuckets(a: seq<InvoiceLine>, da: Option<Discount>, b: seq<InvoiceLine>, db: Option<Discount>, cur: Currency)
    requires KeysOf(a) == KeysOf(b) && AllocatedNets(a, da) == AllocatedNets(b, db)
    requires VatsOn(a, AllocatedNets(a, da)) == VatsOn(b, AllocatedNets(b, db))
    ensures BucketsOf(a, da, cur) == BucketsOf(b, db, cur)
  {
    hide KeysOf, AllocatedNets, VatsOn, SortKeys, Quantize;
  }

  /** A credit note takes back exactly what its invoice declared, key by key and to the unit, when
      nothing had been deducted: a pair in one period nets to zero, whatever surrounds it. */
  lemma {:induction false} NoteCancelsInvoice(inv: Invoice, note: CreditNote)
    requires NoteLines(inv) == AsInvoiceLines(note.lines) && note.currency == inv.currency
    requires NothingDeducted(inv)
    ensures NoteDocument(note).buckets == InvoiceDocument(inv).buckets
    ensures forall k :: var a, b := Under(Invoiced, InvoiceDocument(inv).buckets, k), Under(Credited, NoteDocument(note).buckets, k);
              a.invoicedBase == b.creditedBase && a.invoicedVat == b.creditedVat
  {
    var lines := NoteLines(inv);
    NoteLinesGross(inv.lines);
    UndeductedNets(inv);
    SameRates(inv.lines, Grosses(inv.lines));
    hide NoteLines, AllocatedNets, Grosses, KeysOf, VatsOn, BucketsOf, NothingDeducted;
    assert AllocatedNets(lines, None) == Grosses(inv.lines);
    SameBuckets(lines, None, inv.lines, inv.discount, inv.currency);
    forall k ensures var a, b := Under(Invoiced, InvoiceDocument(inv).buckets, k), Under(Credited, NoteDocument(note).buckets, k);
                     a.invoicedBase == b.creditedBase && a.invoicedVat == b.creditedVat {
      Mirror(InvoiceDocument(inv).buckets, k);
    }
  }

  lemma {:induction false} Mirror(buckets: seq<VatBucket>, k: VatKey)
    ensures Under(Invoiced, buckets, k).invoicedBase == Under(Credited, buckets, k).creditedBase
    ensures Under(Invoiced, buckets, k).invoicedVat == Under(Credited, buckets, k).creditedVat
  {
    if buckets != [] {
      Mirror(buckets[..|buckets| - 1], k);
    }
  }

  function CountOf<K(==)>(keys: seq<K>, k: K): nat {
    if keys == [] then 0 else CountOf(keys[..|keys| - 1], k) + if keys[|keys| - 1] == k then 1 else 0
  }

  /** When what was deducted leaves every key alone: nothing was deducted; or else the net before the document
      discount is negative, so that the discount adds to it, in equal parts, and under every key these parts
      make up for the line discounts. */
  ghost predicate DeductionsBalance(inv: Invoice) {
    var ks, d := KeysOf(inv.lines), DocumentDiscount(inv.lines, inv.discount);
    if TotalPre(inv.lines) >= 0.0 then NothingDeducted(inv)
    else forall k :: GroupSum(ks, LineDiscounts(inv.lines), k) * |ks| as real == -d * CountOf(ks, k) as real
  }

  /** The docstring says the two cancel on their own. At full precision they do so, key by key, exactly when
      the deductions balance; the note credits more than was sold by exactly what was deducted. */
  lemma {:induction false} NoteCancelsIff(inv: Invoice)
    requires ValidLines(inv.lines) && ValidDiscount(inv.discount) && inv.lines != []
    ensures NetExact(NoteLines(inv), None) - NetExact(inv.lines, inv.discount)
         == Sum(LineDiscounts(inv.lines)) + DocumentDiscount(inv.lines, inv.discount)
    ensures TotalPre(inv.lines) >= 0.0 ==> NetExact(NoteLines(inv), None) >= NetExact(inv.lines, inv.discount)
    ensures (forall k :: GroupBase(NoteLines(inv), None, k) == GroupBase(inv.lines, inv.discount, k)) <==> DeductionsBalance(inv)
  {
    NoteNet(inv);
    AllocationConserves(inv.lines, inv.discount);
    hide NetExact, NoteLines, GroupBase, TotalPre, NothingDeducted, LineDiscounts, DocumentDiscount, KeysOf;
    if TotalPre(inv.lines) >= 0.0 {
      NoteCancelsUndeducted(inv);
      DeductionsNonNegative(inv);
    } else {
      NoteCancelsNegative(inv);
    }
  }

  lemma {:induction false} NoteCancelsUndeducted(inv: Invoice)
    requires ValidLines(inv.lines) && ValidDiscount(inv.discount) && inv.lines != [] && TotalPre(inv.lines) >= 0.0
    ensures (forall k :: GroupBase(NoteLines(inv), None, k) == GroupBase(inv.lines, inv.discount, k)) <==> NothingDeducted(inv)
  {
    NoteLinesGross(inv.lines);
    if NothingDeducted(inv) {
      UndeductedNets(inv);
      assert AllocatedNets(NoteLines(inv), None) == Grosses(inv.lines);
    }
    if forall k :: GroupBase(NoteLines(inv), None, k) == GroupBase(inv.lines, inv.discount, k) {
      hide GroupBase, NothingDeducted;
      SameGroupsSameNet(inv);
      NoteNet(inv);
      AllocationConserves(inv.lines, inv.discount);
      NoDeduction(inv);
    }
  }

  lemma {:induction false} GroupSumLast<K(!new)>(keys: seq<K>, vals: seq<real>, k: K)
    requires keys != [] && |keys| == |vals|
    ensures var n := |keys| - 1;
            GroupSum(keys, vals, k) == GroupSum(keys[..n], vals[..n], k) + if keys[n] == k then vals[n] else 0.0
  {
  }

  lemma {:induction false} CountLast<K>(keys: seq<K>, k: K)
    requires keys != []
    ensures CountOf(keys, k) == CountOf(keys[..|keys| - 1], k) + if keys[|keys| - 1] == k then 1 else 0
  {
  }

  lemma {:induction false} NothingGrouped<K(!new)>(k: K)
    ensures GroupSum([], [], k) == 0.0 && CountOf([], k) == 0
  {
  }

  /** Grouping a difference that is a list and a constant. */
  lemma {:induction false} GroupedDifference<K(!new)>(keys: seq<K>, a: seq<real>, b: seq<real>, l: seq<real>, c: real, k: K)
    requires |keys| == |a| == |b| == |l| && forall i :: 0 <= i < |a| ==> a[i] - b[i] == l[i] + c
    ensures GroupSum(keys, a, k) - GroupSum(keys, b, k) == GroupSum(keys, l, k) + c * CountOf(keys, k) as real
  {
    hide *;
    if keys == [] {
      NothingGrouped(k);
      assert a == [] && b == [] && l == [];
    } else {
      var n := |keys| - 1;
      GroupedDifference(keys[..n], a[..n], b[..n], l[..n], c, k);
      assert a[n] - b[n] == l[n] + c;
      GroupSumLast(keys, a, k);
      GroupSumLast(keys, b, k);
      GroupSumLast(keys, l, k);
      CountLast(keys, k);
      OneMore(c, CountOf(keys[..n], k));
    }
  }

  lemma {:induction false} OneMore(c: real, n: nat)
    ensures c * (n + 1) as real == c * n as real + c
  {
  }

  lemma {:induction false} NoteBase(inv: Invoice, k: VatKey)
    ensures GroupBase(NoteLines(inv), None, k) == GroupSum(KeysOf(inv.lines), Grosses(inv.lines), k)
  {
    NoteLinesGross(inv.lines);
    hide GroupSum, KeysOf, Grosses;
    assert AllocatedNets(NoteLines(inv), None) == Grosses(inv.lines);
  }

  function EvenShare(inv: Invoice): real
    requires inv.lines != []
  {
    DocumentDiscount(inv.lines, inv.discount) * (1.0 / |inv.lines| as real)
  }

  lemma {:induction false} EvenPart(inv: Invoice, i: nat)
    requires TotalPre(inv.lines) < 0.0 && i < |inv.lines|
    ensures Grosses(inv.lines)[i] - AllocatedNets(inv.lines, inv.discount)[i] == LineDiscounts(inv.lines)[i] + EvenShare(inv)
  {
    hide TotalPre, DocumentDiscount, Gross, LineDiscount;
  }

  lemma {:induction false} BaseIsGroup(inv: Invoice, k: VatKey)
    ensures GroupBase(inv.lines, inv.discount, k) == GroupSum(KeysOf(inv.lines), AllocatedNets(inv.lines, inv.discount), k)
  {
  }

  /** With a negative net every line gets the same part of the document discount. */
  lemma {:induction false} EvenDeduction(inv: Invoice, k: VatKey)
    requires TotalPre(inv.lines) < 0.0 && inv.lines != []
    ensures var ks := KeysOf(inv.lines);
            GroupBase(NoteLines(inv), None, k) - GroupBase(inv.lines, inv.discount, k)
            == GroupSum(ks, LineDiscounts(inv.lines), k) + EvenShare(inv) * CountOf(ks, k) as real
  {
    NoteBase(inv, k);
    BaseIsGroup(inv, k);
    hide *;
    forall i | 0 <= i < |inv.lines|
      ensures Grosses(inv.lines)[i] - AllocatedNets(inv.lines, inv.discount)[i] == LineDiscounts(inv.lines)[i] + EvenShare(inv)
    {
      EvenPart(inv, i);
    }
    GroupedDifference(KeysOf(inv.lines), Grosses(inv.lines), AllocatedNets(inv.lines, inv.discount), LineDiscounts(inv.lines), EvenShare(inv), k);
  }

  lemma {:induction false} ZeroTimes(x: real, d: real, n: real, count: real)
    requires n > 0.0
    ensures x + d * (1.0 / n) * count == 0.0 <==> x * n == -d * count
  {
    assert (x + d * (1.0 / n) * count) * n == x * n + d * count;
  }

  lemma {:induction false} NoteCancelsNegative(inv: Invoice)
    requires TotalPre(inv.lines) < 0.0 && inv.lines != []
    ensures (forall k :: GroupBase(NoteLines(inv), None, k) == GroupBase(inv.lines, inv.discount, k)) <==> DeductionsBalance(inv)
  {
    var ks, d := KeysOf(inv.lines), DocumentDiscount(inv.lines, inv.discount);
    hide TotalPre, GroupBase, NoteLines, GroupSum, CountOf, DocumentDiscount, LineDiscounts, KeysOf;
    forall k
      ensures GroupBase(NoteLines(inv), None, k) == GroupBase(inv.lines, inv.discount, k)
         <==> GroupSum(ks, LineDiscounts(inv.lines), k) * |ks| as real == -d * CountOf(ks, k) as real
    {
      EvenDeduction(inv, k);
      assert EvenShare(inv) == d * (1.0 / |ks| as real);
      ZeroTimes(GroupSum(ks, LineDiscounts(inv.lines), k), d, |ks| as real, CountOf(ks, k) as real);
    }
  }

  lemma {:induction false} NoteNet(inv: Invoice)
    requires inv.lines != []
    ensures NetExact(NoteLines(inv), None) == Sum(Grosses(inv.lines))
  {
    NoteLinesGross(inv.lines);
  }

  lemma {:induction false} DeductionsNonNegative(inv: Invoice)
    requires ValidLines(inv.lines) && ValidDiscount(inv.discount) && TotalPre(inv.lines) >= 0.0
    ensures forall i :: 0 <= i < |inv.lines| ==> 0.0 <= LineDiscounts(inv.lines)[i] <= Sum(LineDiscounts(inv.lines))
    ensures Sum(LineDiscounts(inv.lines)) >= 0.0 && DocumentDiscount(inv.lines, inv.discount) >= 0.0
  {
    forall i | 0 <= i < |inv.lines| ensures LineDiscounts(inv.lines)[i] >= 0.0 {
      assert inv.lines[i] in inv.lines;
      ProductNonNegative(inv.lines[i].quantity, inv.lines[i].unitPrice);
      DiscountNonNegativeIff(Gross(inv.lines[i]), inv.lines[i].discount);
    }
    SumNonNegative(LineDiscounts(inv.lines));
    DiscountNonNegativeIff(TotalPre(inv.lines), inv.discount);
  }

  lemma {:induction false} NoDeduction(inv: Invoice)
    requires ValidLines(inv.lines) && ValidDiscount(inv.discount) && TotalPre(inv.lines) >= 0.0
    requires Sum(LineDiscounts(inv.lines)) + DocumentDiscount(inv.lines, inv.discount) == 0.0
    ensures NothingDeducted(inv)
  {
    DeductionsNonNegative(inv);
  }

  /** Equal groups add up to equal totals. */
  lemma {:induction false} SameGroupsSameNet(inv: Invoice)
    requires inv.lines != []
    requires forall k :: GroupBase(NoteLines(inv), None, k) == GroupBase(inv.lines, inv.discount, k)
    ensures NetExact(NoteLines(inv), None) == NetExact(inv.lines, inv.discount)
  {
    var lines := NoteLines(inv);
    NoteLinesGross(inv.lines);
    assert BucketKeys(lines) == BucketKeys(inv.lines);
    BucketsConserve(inv.lines, inv.discount);
    BucketsConserve(lines, None);
    var ks := BucketKeys(lines);
    var a := GroupSums(KeysOf(lines), AllocatedNets(lines, None), ks);
    var b := GroupSums(KeysOf(inv.lines), AllocatedNets(inv.lines, inv.discount), ks);
    forall j | 0 <= j < |ks| ensures a[j] == b[j] {
      assert a[j] == GroupBase(lines, None, ks[j]) && b[j] == GroupBase(inv.lines, inv.discount, ks[j]);
    }
    assert a == b;
  }
}
