// Which texts of a ledger come through a restore: the walk renames identifiers, and takes every text in the
// shape of one for one.
module BackupTexts {
  import opened Common
  import opened Money
  import opened Lines
  import opened Store
  import opened LedgerInvariant
  import opened LedgerKeys
  import opened BackupIds
  import opened BackupCodec
  import opened LedgerCopy
  import opened Backup
  import opened BackupServices

  // ------------------------------------------------------------------ only identifiers change

  function LineUnder(l: InvoiceLine, ids: map<string, string>): InvoiceLine {
    l.(productId := RenamedOpt(l.productId, ids))
  }

  function LinesUnder(ls: seq<InvoiceLine>, ids: map<string, string>): (r: seq<InvoiceLine>)
    ensures |r| == |ls|
  {
    seq(|ls|, i requires 0 <= i < |ls| => LineUnder(ls[i], ids))
  }

  function NoteLineUnder(l: CreditNoteLine, ids: map<string, string>): CreditNoteLine {
    l.(productId := RenamedOpt(l.productId, ids))
  }

  function NoteLinesUnder(ls: seq<CreditNoteLine>, ids: map<string, string>): (r: seq<CreditNoteLine>)
    ensures |r| == |ls|
  {
    seq(|ls|, i requires 0 <= i < |ls| => NoteLineUnder(ls[i], ids))
  }

  /** The row under its new identifiers, and with its new joins: every text as it was. */
  function RowUnder(row: Row, ids: map<string, string>): Row {
    match row
    case CompanyRow(id, c) => CompanyRow(Renamed(id, ids), c)
    case ClientRow(id, c) => ClientRow(Renamed(id, ids), c.(companyId := Renamed(c.companyId, ids)))
    case InvoiceRow(id, i) =>
      InvoiceRow(Renamed(id, ids),
        i.(companyId := Renamed(i.companyId, ids), clientId := Renamed(i.clientId, ids), lines := LinesUnder(i.lines, ids),
           voidedBy := RenamedOpt(i.voidedBy, ids)))
    case QuoteRow(id, q) =>
      QuoteRow(Renamed(id, ids),
        q.(companyId := Renamed(q.companyId, ids), clientId := Renamed(q.clientId, ids), lines := LinesUnder(q.lines, ids),
           convertedInvoiceId := RenamedOpt(q.convertedInvoiceId, ids)))
    case NoteRow(id, n) =>
      NoteRow(Renamed(id, ids),
        n.(companyId := Renamed(n.companyId, ids), clientId := Renamed(n.clientId, ids), invoiceId := Renamed(n.invoiceId, ids),
           lines := NoteLinesUnder(n.lines, ids)))
    case PaymentRow(p) => PaymentRow(p.(invoiceId := Renamed(p.invoiceId, ids)))
  }

  // ------------------------------------------------------------------ the texts of a row

  function OptSet(o: Option<string>): set<string> {
    if o.Some? then {o.value} else {}
  }

  function DiscountTexts(o: Option<Discount>): set<string> {
    if o.Some? then OptSet(o.value.reason) else {}
  }

  function LineTexts(l: InvoiceLine): set<string> {
    {l.description} + DiscountTexts(l.discount)
  }

  function LinesTexts(ls: seq<InvoiceLine>): set<string> {
    set i, x | 0 <= i < |ls| && x in LineTexts(ls[i]) :: x
  }

  function NoteLinesTexts(ls: seq<CreditNoteLine>): set<string> {
    set i | 0 <= i < |ls| :: ls[i].description
  }

  function ContentTexts(c: Content): set<string> {
    LinesTexts(c.lines) + DiscountTexts(c.discount) + OptSet(c.comments) + OptSet(c.terms) + {c.template}
  }

  /** Every text of a row that is no identifier of the program's. */
  function Texts(row: Row): set<string> {
    match row
    case CompanyRow(_, c) => {c.name, c.prefix, c.countryCode, c.defaultTemplate}
    case ClientRow(_, c) => {c.name, c.countryCode} + OptSet(c.vatNumber)
    case InvoiceRow(_, i) => OptSet(i.reference) + ContentTexts(InvoiceContent(i)) + OptSet(i.voidedReason)
    case QuoteRow(_, q) => {q.reference} + ContentTexts(QuoteContent(q)) + OptSet(q.decisionNote)
    case NoteRow(_, n) => {n.reference, n.reason} + NoteLinesTexts(n.lines)
    case PaymentRow(p) => OptSet(p.reference)
  }

  /** No text of the set has the shape of an identifier or of a bucket. */
  predicate Plain(texts: set<string>) {
    forall x :: x in texts ==> FiledUnder(x).None?
  }

  /** The walk has met every text of the set. */
  predicate Met(texts: set<string>, ids: map<string, string>) {
    forall x :: x in texts && FiledUnder(x).Some? ==> FiledUnder(x).value in ids
  }

  /** uuid4 never gives an identifier the document already had. */
  ghost predicate Disjoint(ids: map<string, string>) {
    CanonicalValues(ids) && forall k :: k in ids ==> ids[k] !in ids
  }

  lemma {:induction false} TextStays(x: string, ids: map<string, string>)
    requires Met({x}, ids) && Disjoint(ids)
    ensures RenameText(x, ids) == x <==> Plain({x})
  {
    assert x in {x};
    TextUnchangedIff(x, ids);
  }

  lemma {:induction false} OptStays(o: Option<string>, ids: map<string, string>)
    requires Met(OptSet(o), ids) && Disjoint(ids)
    ensures RenamedText(o, ids) == o <==> Plain(OptSet(o))
  {
    hide Disjoint;
    if o.Some? {
      TextStays(o.value, ids);
      hide RenameText, Met, Plain;
    } else {
      hide Met;
    }
  }

  lemma {:induction false} DiscountStays(o: Option<Discount>, ids: map<string, string>)
    requires Met(DiscountTexts(o), ids) && Disjoint(ids)
    ensures RenamedDiscount(o, ids) == o <==> Plain(DiscountTexts(o))
  {
    hide Disjoint, RenamedText, OptSet;
    if o.Some? {
      OptStays(o.value.reason, ids);
      hide Met, Plain;
    } else {
      hide Met;
    }
  }

  lemma {:induction false} PlainUnion(a: set<string>, b: set<string>, ids: map<string, string>)
    ensures Plain(a + b) <==> Plain(a) && Plain(b)
    ensures Met(a + b, ids) <==> Met(a, ids) && Met(b, ids)
  {
    hide FiledUnder;
  }

  lemma {:induction false} LineStays(l: InvoiceLine, ids: map<string, string>)
    requires Met(LineTexts(l), ids) && Disjoint(ids)
    ensures RenamedLine(l, ids) == LineUnder(l, ids) <==> Plain(LineTexts(l))
  {
    hide Disjoint, Met, Plain, RenameText, RenamedDiscount, DiscountTexts, RenamedOpt;
    PlainUnion({l.description}, DiscountTexts(l.discount), ids);
    TextStays(l.description, ids);
    DiscountStays(l.discount, ids);
  }

  lemma {:induction false} LinesMet(ls: seq<InvoiceLine>, ids: map<string, string>, i: nat)
    requires i < |ls|
    ensures Met(LinesTexts(ls), ids) ==> Met(LineTexts(ls[i]), ids)
    ensures Plain(LinesTexts(ls)) ==> Plain(LineTexts(ls[i]))
  {
    hide FiledUnder, LineTexts;
  }

  lemma {:induction false} LinesPlain(ls: seq<InvoiceLine>)
    requires forall i :: 0 <= i < |ls| ==> Plain(LineTexts(ls[i]))
    ensures Plain(LinesTexts(ls))
  {
    hide FiledUnder, LineTexts;
  }

  lemma {:induction false} LinesStay(ls: seq<InvoiceLine>, ids: map<string, string>)
    requires Met(LinesTexts(ls), ids) && Disjoint(ids)
    ensures RenamedLines(ls, ids) == LinesUnder(ls, ids) <==> Plain(LinesTexts(ls))
  {
    hide Disjoint, Met, Plain, RenamedLine, LineUnder, LineTexts, LinesTexts;
    forall i | 0 <= i < |ls| ensures RenamedLine(ls[i], ids) == LineUnder(ls[i], ids) <==> Plain(LineTexts(ls[i])) {
      LinesMet(ls, ids, i);
      LineStays(ls[i], ids);
    }
    if Plain(LinesTexts(ls)) {
      forall i | 0 <= i < |ls| ensures RenamedLines(ls, ids)[i] == LinesUnder(ls, ids)[i] {
        LinesMet(ls, ids, i);
      }
    } else if RenamedLines(ls, ids) == LinesUnder(ls, ids) {
      forall i | 0 <= i < |ls| ensures Plain(LineTexts(ls[i])) {
        assert RenamedLines(ls, ids)[i] == LinesUnder(ls, ids)[i];
      }
      LinesPlain(ls);
    }
  }

  lemma {:induction false} NoteLinesMet(ls: seq<CreditNoteLine>, ids: map<string, string>, i: nat)
    requires i < |ls|
    ensures Met(NoteLinesTexts(ls), ids) ==> Met({ls[i].description}, ids)
    ensures Plain(NoteLinesTexts(ls)) ==> Plain({ls[i].description})
  {
    hide FiledUnder;
  }

  lemma {:induction false} NoteLinesPlain(ls: seq<CreditNoteLine>)
    requires forall i :: 0 <= i < |ls| ==> Plain({ls[i].description})
    ensures Plain(NoteLinesTexts(ls))
  {
    hide FiledUnder;
    forall x | x in NoteLinesTexts(ls) ensures FiledUnder(x).None? {
      var i :| 0 <= i < |ls| && x == ls[i].description;
      assert x in {ls[i].description};
    }
  }

  lemma {:induction false} NoteLinesStay(ls: seq<CreditNoteLine>, ids: map<string, string>)
    requires Met(NoteLinesTexts(ls), ids) && Disjoint(ids)
    ensures RenamedNoteLines(ls, ids) == NoteLinesUnder(ls, ids) <==> Plain(NoteLinesTexts(ls))
  {
    hide Disjoint, Met, Plain, RenameText, RenamedOpt, NoteLinesTexts;
    forall i | 0 <= i < |ls|
      ensures RenamedNoteLine(ls[i], ids) == NoteLineUnder(ls[i], ids) <==> Plain({ls[i].description})
    {
      NoteLinesMet(ls, ids, i);
      TextStays(ls[i].description, ids);
    }
    hide RenamedNoteLine, NoteLineUnder;
    if Plain(NoteLinesTexts(ls)) {
      forall i | 0 <= i < |ls| ensures RenamedNoteLines(ls, ids)[i] == NoteLinesUnder(ls, ids)[i] {
        NoteLinesMet(ls, ids, i);
      }
    } else if RenamedNoteLines(ls, ids) == NoteLinesUnder(ls, ids) {
      forall i | 0 <= i < |ls| ensures Plain({ls[i].description}) {
        assert RenamedNoteLines(ls, ids)[i] == NoteLinesUnder(ls, ids)[i];
      }
      NoteLinesPlain(ls);
    }
  }

  function ContentUnder(c: Content, ids: map<string, string>): Content {
    c.(lines := LinesUnder(c.lines, ids))
  }

  lemma {:induction false} ContentStays(c: Content, ids: map<string, string>)
    requires Met(ContentTexts(c), ids) && Disjoint(ids)
    ensures RenamedContent(c, ids) == ContentUnder(c, ids) <==> Plain(ContentTexts(c))
  {
    hide Disjoint, Met, Plain, RenameText, RenamedDiscount, DiscountTexts, RenamedText, OptSet, RenamedLines, LinesUnder, LinesTexts;
    var a, b, d, e, f := LinesTexts(c.lines), DiscountTexts(c.discount), OptSet(c.comments), OptSet(c.terms), {c.template};
    PlainUnion(a + b + d + e, f, ids);
    PlainUnion(a + b + d, e, ids);
    PlainUnion(a + b, d, ids);
    PlainUnion(a, b, ids);
    LinesStay(c.lines, ids);
    DiscountStays(c.discount, ids);
    OptStays(c.comments, ids);
    OptStays(c.terms, ids);
    TextStays(c.template, ids);
  }

  lemma {:induction false} CompanyStays(id: Id, c: Company, ids: map<string, string>)
    requires Met(Texts(CompanyRow(id, c)), ids) && Disjoint(ids)
    ensures RenamedCompany(c, ids) == c <==> Plain(Texts(CompanyRow(id, c)))
  {
    hide Disjoint, Met, Plain, RenameText;
    assert Texts(CompanyRow(id, c)) == {c.name} + {c.prefix} + {c.countryCode} + {c.defaultTemplate};
    PlainUnion({c.name} + {c.prefix} + {c.countryCode}, {c.defaultTemplate}, ids);
    PlainUnion({c.name} + {c.prefix}, {c.countryCode}, ids);
    PlainUnion({c.name}, {c.prefix}, ids);
    TextStays(c.name, ids);
    TextStays(c.prefix, ids);
    TextStays(c.countryCode, ids);
    TextStays(c.defaultTemplate, ids);
  }

  lemma {:induction false} ClientStays(id: Id, c: Client, ids: map<string, string>)
    requires Met(Texts(ClientRow(id, c)), ids) && Disjoint(ids)
    ensures RenamedRow(ClientRow(id, c), ids) == RowUnder(ClientRow(id, c), ids) <==> Plain(Texts(ClientRow(id, c)))
  {
    hide Disjoint, Met, Plain, RenameText, Renamed, RenamedText, OptSet;
    assert Texts(ClientRow(id, c)) == {c.name} + {c.countryCode} + OptSet(c.vatNumber);
    PlainUnion({c.name} + {c.countryCode}, OptSet(c.vatNumber), ids);
    PlainUnion({c.name}, {c.countryCode}, ids);
    TextStays(c.name, ids);
    TextStays(c.countryCode, ids);
    OptStays(c.vatNumber, ids);
  }

  lemma {:induction false} InvoiceStays(id: Id, i: Invoice, ids: map<string, string>)
    requires Met(Texts(InvoiceRow(id, i)), ids) && Disjoint(ids)
    ensures RenamedRow(InvoiceRow(id, i), ids) == RowUnder(InvoiceRow(id, i), ids) <==> Plain(Texts(InvoiceRow(id, i)))
  {
    hide Disjoint, Met, Plain, RenameText, Renamed, RenamedText, RenamedOpt, OptSet, ContentTexts, RenamedLines, LinesUnder, RenamedDiscount;
    PlainUnion(OptSet(i.reference) + ContentTexts(InvoiceContent(i)), OptSet(i.voidedReason), ids);
    PlainUnion(OptSet(i.reference), ContentTexts(InvoiceContent(i)), ids);
    OptStays(i.reference, ids);
    ContentStays(InvoiceContent(i), ids);
    OptStays(i.voidedReason, ids);
  }

  lemma {:induction false} QuoteStays(id: Id, q: Quote, ids: map<string, string>)
    requires Met(Texts(QuoteRow(id, q)), ids) && Disjoint(ids)
    ensures RenamedRow(QuoteRow(id, q), ids) == RowUnder(QuoteRow(id, q), ids) <==> Plain(Texts(QuoteRow(id, q)))
  {
    hide Disjoint, Met, Plain, RenameText, Renamed, RenamedText, RenamedOpt, OptSet, ContentTexts, RenamedLines, LinesUnder, RenamedDiscount;
    PlainUnion({q.reference} + ContentTexts(QuoteContent(q)), OptSet(q.decisionNote), ids);
    PlainUnion({q.reference}, ContentTexts(QuoteContent(q)), ids);
    TextStays(q.reference, ids);
    ContentStays(QuoteContent(q), ids);
    OptStays(q.decisionNote, ids);
  }

  lemma {:induction false} NoteStays(id: Id, n: CreditNote, ids: map<string, string>)
    requires Met(Texts(NoteRow(id, n)), ids) && Disjoint(ids)
    ensures RenamedRow(NoteRow(id, n), ids) == RowUnder(NoteRow(id, n), ids) <==> Plain(Texts(NoteRow(id, n)))
  {
    hide Disjoint, Met, Plain, RenameText, Renamed, NoteLinesTexts, RenamedNoteLines, NoteLinesUnder;
    assert Texts(NoteRow(id, n)) == {n.reference} + {n.reason} + NoteLinesTexts(n.lines);
    PlainUnion({n.reference} + {n.reason}, NoteLinesTexts(n.lines), ids);
    PlainUnion({n.reference}, {n.reason}, ids);
    TextStays(n.reference, ids);
    TextStays(n.reason, ids);
    NoteLinesStay(n.lines, ids);
  }

  lemma {:induction false} PaymentStays(p: Payment, ids: map<string, string>)
    requires Met(Texts(PaymentRow(p)), ids) && Disjoint(ids)
    ensures RenamedRow(PaymentRow(p), ids) == RowUnder(PaymentRow(p), ids) <==> Plain(Texts(PaymentRow(p)))
  {
    hide Disjoint, Met, Plain, RenamedText, Renamed, OptSet;
    OptStays(p.reference, ids);
  }

  /** Only the identifiers of a row change if and only if no text of it has the shape of one. */
  lemma {:induction false} OnlyIdentifiersChangeIff(row: Row, ids: map<string, string>)
    requires Met(Texts(row), ids) && Disjoint(ids)
    ensures RenamedRow(row, ids) == RowUnder(row, ids) <==> Plain(Texts(row))
  {
    match row
    case CompanyRow(id, c) =>
      CompanyStays(id, c, ids);
      hide Texts, Met, Disjoint, Plain, RenamedCompany;
    case ClientRow(id, c) =>
      ClientStays(id, c, ids);
      hide *;
    case InvoiceRow(id, i) =>
      InvoiceStays(id, i, ids);
      hide *;
    case QuoteRow(id, q) =>
      QuoteStays(id, q, ids);
      hide *;
    case NoteRow(id, n) =>
      NoteStays(id, n, ids);
      hide *;
    case PaymentRow(p) =>
      PaymentStays(p, ids);
      hide *;
  }

  // ------------------------------------------------------------------ the walk meets every text

  /** The document mentions whatever the texts file. */
  predicate Inside(texts: set<string>, v: Json) {
    forall x :: x in texts && FiledUnder(x).Some? ==> FiledUnder(x).value in KeysIn(v)
  }

  lemma {:induction false} TextInside(x: string)
    ensures Inside({x}, Str(x))
  {
    hide FiledUnder;
  }

  lemma {:induction false} OptInside(o: Option<string>)
    ensures Inside(OptSet(o), OptText(o))
  {
    hide FiledUnder;
  }

  lemma {:induction false} UnionInside(a: set<string>, b: set<string>, v: Json)
    requires Inside(a, v) && Inside(b, v)
    ensures Inside(a + b, v)
  {
    hide FiledUnder, KeysIn;
  }

  lemma {:induction false} ItemInside(texts: set<string>, kind: Kind, items: seq<Json>, i: nat)
    requires i < |items| && Inside(texts, items[i])
    ensures Inside(texts, Node(kind, items))
  {
    MentionedInside(items, i);
    assert KeysIn(items[i]) <= KeysIn(Node(kind, items));
    hide FiledUnder, KeysIn;
  }

  lemma {:induction false} DiscountInside(o: Option<Discount>)
    ensures Inside(DiscountTexts(o), EncodeDiscount(o))
  {
    hide Inside, OptSet, OptText;
    if o.Some? {
      OptInside(o.value.reason);
      ItemInside(OptSet(o.value.reason), Dict, EncodeDiscount(o).items, 2);
    } else {
      OptInside(None);
      NothingInside(Null);
    }
  }

  lemma {:induction false} NothingInside(v: Json)
    ensures Inside({}, v)
  {
  }

  lemma {:induction false} LineInside(l: InvoiceLine)
    ensures Inside(LineTexts(l), EncodeLine(l))
  {
    hide Inside, DiscountTexts, EncodeDiscount, OptText, SupplyTag, CategoryTag;
    TextInside(l.description);
    DiscountInside(l.discount);
    ItemInside({l.description}, Dict, EncodeLine(l).items, 1);
    ItemInside(DiscountTexts(l.discount), Dict, EncodeLine(l).items, 8);
    UnionInside({l.description}, DiscountTexts(l.discount), EncodeLine(l));
  }

  lemma {:induction false} LinesInside(ls: seq<InvoiceLine>)
    ensures Inside(LinesTexts(ls), Node(List, EncodeLines(ls)))
  {
    hide FiledUnder, KeysIn, LineTexts, EncodeLine;
    forall i | 0 <= i < |ls| ensures Inside(LineTexts(ls[i]), Node(List, EncodeLines(ls))) {
      LineInside(ls[i]);
      ItemInside(LineTexts(ls[i]), List, EncodeLines(ls), i);
    }
  }

  lemma {:induction false} NoteLinesInside(ls: seq<CreditNoteLine>)
    ensures Inside(NoteLinesTexts(ls), Node(List, EncodeNoteLines(ls)))
  {
    hide FiledUnder, KeysIn;
    forall i | 0 <= i < |ls| ensures Inside({ls[i].description}, Node(List, EncodeNoteLines(ls))) {
      TextInside(ls[i].description);
      ItemInside({ls[i].description}, Dict, EncodeNoteLine(ls[i]).items, 1);
      ItemInside({ls[i].description}, List, EncodeNoteLines(ls), i);
    }
    forall x | x in NoteLinesTexts(ls) && FiledUnder(x).Some? ensures FiledUnder(x).value in KeysIn(Node(List, EncodeNoteLines(ls))) {
      var i :| 0 <= i < |ls| && x == ls[i].description;
      assert x in {ls[i].description};
    }
  }

  lemma {:induction false} ContentInside(c: Content)
    ensures Inside(ContentTexts(c), EncodeContent(c))
  {
    hide Inside, LinesTexts, DiscountTexts, EncodeDiscount, OptText, OptSet, CurrencyTag, EncodeLines;
    var v := EncodeContent(c);
    LinesInside(c.lines);
    DiscountInside(c.discount);
    OptInside(c.comments);
    OptInside(c.terms);
    TextInside(c.template);
    ItemInside(LinesTexts(c.lines), Dict, v.items, 1);
    ItemInside(DiscountTexts(c.discount), Dict, v.items, 2);
    ItemInside(OptSet(c.comments), Dict, v.items, 3);
    ItemInside(OptSet(c.terms), Dict, v.items, 4);
    ItemInside({c.template}, Dict, v.items, 5);
    UnionInside(LinesTexts(c.lines), DiscountTexts(c.discount), v);
    UnionInside(LinesTexts(c.lines) + DiscountTexts(c.discount), OptSet(c.comments), v);
    UnionInside(LinesTexts(c.lines) + DiscountTexts(c.discount) + OptSet(c.comments), OptSet(c.terms), v);
    UnionInside(LinesTexts(c.lines) + DiscountTexts(c.discount) + OptSet(c.comments) + OptSet(c.terms), {c.template}, v);
  }

  lemma {:induction false} ReferenceInside(h: Head)
    ensures Inside(OptSet(h.reference), EncodeHead(h))
  {
    hide Inside, OptSet, OptText, OptNat, OptDay;
    OptInside(h.reference);
    ItemInside(OptSet(h.reference), Dict, EncodeHead(h).items, 3);
  }

  lemma {:induction false} CompanyInside(id: Id, c: Company)
    ensures Inside(Texts(CompanyRow(id, c)), Encode(CompanyRow(id, c)))
  {
    hide Inside, CurrencyTag;
    var v := Encode(CompanyRow(id, c));
    TextInside(c.name);
    TextInside(c.prefix);
    TextInside(c.countryCode);
    TextInside(c.defaultTemplate);
    ItemInside({c.name}, Dict, v.items, 1);
    ItemInside({c.prefix}, Dict, v.items, 2);
    ItemInside({c.countryCode}, Dict, v.items, 3);
    ItemInside({c.defaultTemplate}, Dict, v.items, 5);
    UnionInside({c.name}, {c.prefix}, v);
    UnionInside({c.name} + {c.prefix}, {c.countryCode}, v);
    UnionInside({c.name} + {c.prefix} + {c.countryCode}, {c.defaultTemplate}, v);
    assert Texts(CompanyRow(id, c)) == {c.name} + {c.prefix} + {c.countryCode} + {c.defaultTemplate};
  }

  lemma {:induction false} ClientInside(id: Id, c: Client)
    ensures Inside(Texts(ClientRow(id, c)), Encode(ClientRow(id, c)))
  {
    hide Inside, OptText, OptSet;
    var v := Encode(ClientRow(id, c));
    TextInside(c.name);
    TextInside(c.countryCode);
    OptInside(c.vatNumber);
    ItemInside({c.name}, Dict, v.items, 2);
    ItemInside({c.countryCode}, Dict, v.items, 3);
    ItemInside(OptSet(c.vatNumber), Dict, v.items, 5);
    UnionInside({c.name}, {c.countryCode}, v);
    UnionInside({c.name} + {c.countryCode}, OptSet(c.vatNumber), v);
    assert Texts(ClientRow(id, c)) == {c.name} + {c.countryCode} + OptSet(c.vatNumber);
  }

  lemma {:induction false} InvoiceInside(id: Id, i: Invoice)
    ensures Inside(Texts(InvoiceRow(id, i)), Encode(InvoiceRow(id, i)))
  {
    hide Inside, OptText, OptSet, OptDay, StatusTag, ContentTexts, EncodeHead, EncodeContent, EncodeMoney;
    var v := Encode(InvoiceRow(id, i));
    ReferenceInside(InvoiceHead(id, i));
    ContentInside(InvoiceContent(i));
    OptInside(i.voidedReason);
    ItemInside(OptSet(i.reference), Dict, v.items, 0);
    ItemInside(ContentTexts(InvoiceContent(i)), Dict, v.items, 1);
    ItemInside(OptSet(i.voidedReason), Dict, v.items[3].items, 2);
    ItemInside(OptSet(i.voidedReason), Dict, v.items, 3);
    UnionInside(OptSet(i.reference), ContentTexts(InvoiceContent(i)), v);
    UnionInside(OptSet(i.reference) + ContentTexts(InvoiceContent(i)), OptSet(i.voidedReason), v);
  }

  lemma {:induction false} QuoteInside(id: Id, q: Quote)
    ensures Inside(Texts(QuoteRow(id, q)), Encode(QuoteRow(id, q)))
  {
    hide Inside, OptText, OptDay, QuoteTag, ContentTexts, EncodeHead, EncodeContent, EncodeMoney;
    var v := Encode(QuoteRow(id, q));
    ReferenceInside(QuoteHead(id, q));
    ContentInside(QuoteContent(q));
    OptInside(q.decisionNote);
    assert OptSet(QuoteHead(id, q).reference) == {q.reference};
    hide OptSet;
    ItemInside({q.reference}, Dict, v.items, 0);
    ItemInside(ContentTexts(QuoteContent(q)), Dict, v.items, 1);
    ItemInside(OptSet(q.decisionNote), Dict, v.items[3].items, 1);
    ItemInside(OptSet(q.decisionNote), Dict, v.items, 3);
    UnionInside({q.reference}, ContentTexts(QuoteContent(q)), v);
    UnionInside({q.reference} + ContentTexts(QuoteContent(q)), OptSet(q.decisionNote), v);
  }

  lemma {:induction false} NoteInside(id: Id, n: CreditNote)
    ensures Inside(Texts(NoteRow(id, n)), Encode(NoteRow(id, n)))
  {
    hide Inside, CurrencyTag, NoteLinesTexts, EncodeHead, EncodeNoteLines;
    var v, h := Encode(NoteRow(id, n)), Head(id, n.companyId, n.clientId, Some(n.reference), Some(n.sequence), n.issueDate, None);
    ReferenceInside(h);
    assert OptSet(h.reference) == {n.reference};
    TextInside(n.reason);
    NoteLinesInside(n.lines);
    ItemInside({n.reference}, Dict, v.items, 0);
    ItemInside({n.reason}, Dict, v.items[1].items, 1);
    ItemInside(NoteLinesTexts(n.lines), Dict, v.items[1].items, 3);
    ItemInside({n.reason}, Dict, v.items, 1);
    ItemInside(NoteLinesTexts(n.lines), Dict, v.items, 1);
    UnionInside({n.reference}, {n.reason}, v);
    UnionInside({n.reference} + {n.reason}, NoteLinesTexts(n.lines), v);
    assert Texts(NoteRow(id, n)) == {n.reference} + {n.reason} + NoteLinesTexts(n.lines);
  }

  lemma {:induction false} PaymentInside(p: Payment)
    ensures Inside(Texts(PaymentRow(p)), Encode(PaymentRow(p)))
  {
    hide Inside, CurrencyTag, OptText, OptSet;
    OptInside(p.reference);
    ItemInside(OptSet(p.reference), Dict, EncodePayment(p), 4);
  }

  lemma {:induction false} RowInside(row: Row)
    ensures Inside(Texts(row), Encode(row))
  {
    hide *;
    match row
    case CompanyRow(id, c) => CompanyInside(id, c);
    case ClientRow(id, c) => ClientInside(id, c);
    case InvoiceRow(id, i) => InvoiceInside(id, i);
    case QuoteRow(id, q) => QuoteInside(id, q);
    case NoteRow(id, n) => NoteInside(id, n);
    case PaymentRow(p) => PaymentInside(p);
  }

  /** A walk that has filed all a row's dump mentions has met all its texts. */
  lemma {:induction false} RowMet(row: Row, ids: map<string, string>)
    requires KeysIn(Encode(row)) <= ids.Keys
    ensures Met(Texts(row), ids)
  {
    hide *;
    RowInside(row);
    InsideMet(Texts(row), Encode(row), ids);
  }

  lemma {:induction false} InsideMet(texts: set<string>, v: Json, ids: map<string, string>)
    requires Inside(texts, v) && KeysIn(v) <= ids.Keys
    ensures Met(texts, ids)
  {
    hide FiledUnder, KeysIn;
  }

  // ------------------------------------------------------------------ the whole ledger

  function PaymentsUnder(ps: seq<Payment>, ids: map<string, string>): (r: seq<Payment>)
    ensures |r| == |ps|
  {
    seq(|ps|, i requires 0 <= i < |ps| => ps[i].(invoiceId := Renamed(ps[i].invoiceId, ids)))
  }

  ghost predicate CompaniesKeepTexts(m: map<Id, Company>, m': map<Id, Company>, ids: map<string, string>) {
    forall id :: id in m && Renamed(id, ids) in m' ==>
      CompanyRow(Renamed(id, ids), m'[Renamed(id, ids)]) == RowUnder(CompanyRow(id, m[id]), ids)
  }

  ghost predicate ClientsKeepTexts(m: map<Id, Client>, m': map<Id, Client>, ids: map<string, string>) {
    forall id :: id in m && Renamed(id, ids) in m' ==>
      ClientRow(Renamed(id, ids), m'[Renamed(id, ids)]) == RowUnder(ClientRow(id, m[id]), ids)
  }

  ghost predicate InvoicesKeepTexts(m: map<Id, Invoice>, m': map<Id, Invoice>, ids: map<string, string>) {
    forall id :: id in m && Renamed(id, ids) in m' ==>
      InvoiceRow(Renamed(id, ids), m'[Renamed(id, ids)]) == RowUnder(InvoiceRow(id, m[id]), ids)
  }

  ghost predicate QuotesKeepTexts(m: map<Id, Quote>, m': map<Id, Quote>, ids: map<string, string>) {
    forall id :: id in m && Renamed(id, ids) in m' ==>
      QuoteRow(Renamed(id, ids), m'[Renamed(id, ids)]) == RowUnder(QuoteRow(id, m[id]), ids)
  }

  ghost predicate NotesKeepTexts(m: map<Id, CreditNote>, m': map<Id, CreditNote>, ids: map<string, string>) {
    forall id :: id in m && Renamed(id, ids) in m' ==>
      NoteRow(Renamed(id, ids), m'[Renamed(id, ids)]) == RowUnder(NoteRow(id, m[id]), ids)
  }

  /** In the restored ledger every row differs from its source in identifiers only. */
  ghost predicate KeepsTexts(s: Store, r: Store, ids: map<string, string>) {
    && CompaniesKeepTexts(s.companies, r.companies, ids)
    && ClientsKeepTexts(s.clients, r.clients, ids)
    && InvoicesKeepTexts(s.invoices, r.invoices, ids)
    && QuotesKeepTexts(s.quotes, r.quotes, ids)
    && NotesKeepTexts(s.notes, r.notes, ids)
    && multiset(r.payments) == multiset(PaymentsUnder(s.payments, ids))
  }

  /** No text of the ledger has the shape of an identifier. */
  ghost predicate PlainLedger(s: Store) {
    && (forall id :: id in s.companies ==> Plain(Texts(CompanyRow(id, s.companies[id]))))
    && (forall id :: id in s.clients ==> Plain(Texts(ClientRow(id, s.clients[id]))))
    && (forall id :: id in s.invoices ==> Plain(Texts(InvoiceRow(id, s.invoices[id]))))
    && (forall id :: id in s.quotes ==> Plain(Texts(QuoteRow(id, s.quotes[id]))))
    && (forall id :: id in s.notes ==> Plain(Texts(NoteRow(id, s.notes[id]))))
    && (forall i :: 0 <= i < |s.payments| ==> Plain(Texts(PaymentRow(s.payments[i]))))
  }

  lemma {:induction false} CompaniesIff(m: map<Id, Company>, m': map<Id, Company>, ids: map<string, string>)
    requires CompaniesCopied(m, m', ids) && Disjoint(ids) && forall id :: id in m ==> Met(Texts(CompanyRow(id, m[id])), ids)
    ensures CompaniesKeepTexts(m, m', ids) <==> forall id :: id in m ==> Plain(Texts(CompanyRow(id, m[id])))
  {
    hide Disjoint, Met, Plain, Texts, RowUnder, RenamedCompany, Renamed;
    forall id | id in m
      ensures CompanyRow(Renamed(id, ids), m'[Renamed(id, ids)]) == RowUnder(CompanyRow(id, m[id]), ids) <==> Plain(Texts(CompanyRow(id, m[id])))
    {
      OnlyIdentifiersChangeIff(CompanyRow(id, m[id]), ids);
    }
  }

  lemma {:induction false} ClientsIff(m: map<Id, Client>, m': map<Id, Client>, ids: map<string, string>)
    requires ClientsCopied(m, m', ids) && Disjoint(ids) && forall id :: id in m ==> Met(Texts(ClientRow(id, m[id])), ids)
    ensures ClientsKeepTexts(m, m', ids) <==> forall id :: id in m ==> Plain(Texts(ClientRow(id, m[id])))
  {
    hide Disjoint, Met, Plain, Texts, RowUnder, RenamedClient, Renamed;
    forall id | id in m
      ensures ClientRow(Renamed(id, ids), m'[Renamed(id, ids)]) == RowUnder(ClientRow(id, m[id]), ids) <==> Plain(Texts(ClientRow(id, m[id])))
    {
      OnlyIdentifiersChangeIff(ClientRow(id, m[id]), ids);
    }
  }

  lemma {:induction false} InvoicesIff(m: map<Id, Invoice>, m': map<Id, Invoice>, ids: map<string, string>)
    requires InvoicesCopied(m, m', ids) && Disjoint(ids) && forall id :: id in m ==> Met(Texts(InvoiceRow(id, m[id])), ids)
    ensures InvoicesKeepTexts(m, m', ids) <==> forall id :: id in m ==> Plain(Texts(InvoiceRow(id, m[id])))
  {
    hide Disjoint, Met, Plain, Texts, RowUnder, RenamedInvoice, Renamed;
    forall id | id in m
      ensures InvoiceRow(Renamed(id, ids), m'[Renamed(id, ids)]) == RowUnder(InvoiceRow(id, m[id]), ids) <==> Plain(Texts(InvoiceRow(id, m[id])))
    {
      OnlyIdentifiersChangeIff(InvoiceRow(id, m[id]), ids);
    }
  }

  lemma {:induction false} QuotesIff(m: map<Id, Quote>, m': map<Id, Quote>, ids: map<string, string>)
    requires QuotesCopied(m, m', ids) && Disjoint(ids) && forall id :: id in m ==> Met(Texts(QuoteRow(id, m[id])), ids)
    ensures QuotesKeepTexts(m, m', ids) <==> forall id :: id in m ==> Plain(Texts(QuoteRow(id, m[id])))
  {
    hide Disjoint, Met, Plain, Texts, RowUnder, RenamedQuote, Renamed;
    forall id | id in m
      ensures QuoteRow(Renamed(id, ids), m'[Renamed(id, ids)]) == RowUnder(QuoteRow(id, m[id]), ids) <==> Plain(Texts(QuoteRow(id, m[id])))
    {
      OnlyIdentifiersChangeIff(QuoteRow(id, m[id]), ids);
    }
  }

  lemma {:induction false} NotesIff(m: map<Id, CreditNote>, m': map<Id, CreditNote>, ids: map<string, string>)
    requires NotesCopied(m, m', ids) && Disjoint(ids) && forall id :: id in m ==> Met(Texts(NoteRow(id, m[id])), ids)
    ensures NotesKeepTexts(m, m', ids) <==> forall id :: id in m ==> Plain(Texts(NoteRow(id, m[id])))
  {
    hide Disjoint, Met, Plain, Texts, RowUnder, RenamedNote, Renamed;
    forall id | id in m
      ensures NoteRow(Renamed(id, ids), m'[Renamed(id, ids)]) == RowUnder(NoteRow(id, m[id]), ids) <==> Plain(Texts(NoteRow(id, m[id])))
    {
      OnlyIdentifiersChangeIff(NoteRow(id, m[id]), ids);
    }
  }

  // Payments are compared in any order: a reference that is rewritten is not there any more.

  lemma {:induction false} RewrittenIsFiled(x: string, id: string)
    requires FiledUnder(x).Some? && Canonical(id)
    ensures FiledUnder(Rewritten(x, id)) == Some(id)
  {
    if MatchesUuid(x) {
    } else {
      var g, y := BucketGroups(x).value, Rewritten(x, id);
      assert y == "bucket:" + id + g.1;
      assert y[..7] == "bucket:" && y[7..43] == id && y[43..] == g.1;
      assert |y| != 36 && |y| != 37;
      assert g.1 != "" && g.1[|g.1| - 1] != '\n';
      assert WithoutFinalNewline(y) == y;
    }
  }

  /** After the walk no text mentions an identifier the document had. */
  lemma {:induction false} NothingOldLeft(x: string, ids: map<string, string>)
    requires Met({x}, ids) && Disjoint(ids) && FiledUnder(RenameText(x, ids)).Some?
    ensures FiledUnder(RenameText(x, ids)).value !in ids
  {
    assert x in {x};
    hide Rewritten;
    if FiledUnder(x).Some? {
      RewrittenIsFiled(x, ids[FiledUnder(x).value]);
    }
    hide FiledUnder;
  }

  ghost predicate PaymentsMet(ps: seq<Payment>, ids: map<string, string>) {
    forall i :: 0 <= i < |ps| ==> Met(OptSet(ps[i].reference), ids)
  }

  ghost predicate PaymentsPlain(ps: seq<Payment>) {
    forall i :: 0 <= i < |ps| ==> Plain(OptSet(ps[i].reference))
  }

  /** A payment's reference never comes back once it was rewritten, neither with this payment nor another. */
  lemma {:induction false} PaymentsLost(ps: seq<Payment>, ids: map<string, string>, i: nat)
    requires PaymentsMet(ps, ids) && Disjoint(ids) && i < |ps| && !Plain(OptSet(ps[i].reference))
    ensures PaymentsUnder(ps, ids)[i] !in RenamedPayments(ps, ids)
  {
    hide Disjoint, FiledUnder, RenameText, Renamed;
    var x := ps[i].reference.value;
    assert FiledUnder(x).Some? && FiledUnder(x).value in ids;
    forall j | 0 <= j < |ps| ensures RenamedPayments(ps, ids)[j] != PaymentsUnder(ps, ids)[i] {
      if ps[j].reference.Some? && RenameText(ps[j].reference.value, ids) == x {
        assert ps[j].reference.value in OptSet(ps[j].reference);
        NothingOldLeft(ps[j].reference.value, ids);
      }
    }
  }

  lemma {:induction false} PaymentsIff(ps: seq<Payment>, ids: map<string, string>)
    requires PaymentsMet(ps, ids) && Disjoint(ids)
    ensures multiset(RenamedPayments(ps, ids)) == multiset(PaymentsUnder(ps, ids)) <==> PaymentsPlain(ps)
  {
    hide Disjoint, Plain, OptSet, Met, Renamed, RenamedText;
    if PaymentsPlain(ps) {
      forall i | 0 <= i < |ps| ensures RenamedPayments(ps, ids)[i] == PaymentsUnder(ps, ids)[i] {
        OptStays(ps[i].reference, ids);
      }
      assert RenamedPayments(ps, ids) == PaymentsUnder(ps, ids);
    } else {
      var i :| 0 <= i < |ps| && !Plain(OptSet(ps[i].reference));
      PaymentsLost(ps, ids, i);
      hide RenamedPayments, PaymentsUnder;
      assert PaymentsUnder(ps, ids)[i] in multiset(PaymentsUnder(ps, ids));
      assert PaymentsUnder(ps, ids)[i] !in multiset(RenamedPayments(ps, ids));
    }
  }

  /** Every text of every row has been met. */
  ghost predicate LedgerMet(s: Store, ids: map<string, string>) {
    && (forall id :: id in s.companies ==> Met(Texts(CompanyRow(id, s.companies[id])), ids))
    && (forall id :: id in s.clients ==> Met(Texts(ClientRow(id, s.clients[id])), ids))
    && (forall id :: id in s.invoices ==> Met(Texts(InvoiceRow(id, s.invoices[id])), ids))
    && (forall id :: id in s.quotes ==> Met(Texts(QuoteRow(id, s.quotes[id])), ids))
    && (forall id :: id in s.notes ==> Met(Texts(NoteRow(id, s.notes[id])), ids))
    && PaymentsMet(s.payments, ids)
  }

  lemma {:induction false} CopyKeepsTextsIff(s: Store, r: Store, ids: map<string, string>)
    requires Copied(s, r, ids) && Disjoint(ids) && LedgerMet(s, ids)
    ensures KeepsTexts(s, r, ids) <==> PlainLedger(s)
  {
    hide Met, Plain, Disjoint, RowUnder, Texts, CompaniesCopied, ClientsCopied, InvoicesCopied, QuotesCopied, NotesCopied, CountersCopied,
         CompaniesKeepTexts, ClientsKeepTexts, InvoicesKeepTexts, QuotesKeepTexts, NotesKeepTexts, PaymentsUnder, RenamedPayments, PaidOn,
         PaymentsMet, PaymentsPlain;
    CompaniesIff(s.companies, r.companies, ids);
    ClientsIff(s.clients, r.clients, ids);
    InvoicesIff(s.invoices, r.invoices, ids);
    QuotesIff(s.quotes, r.quotes, ids);
    NotesIff(s.notes, r.notes, ids);
    PaymentsIff(s.payments, ids);
    PaymentTexts(s.payments);
  }

  lemma {:induction false} PaymentTexts(ps: seq<Payment>)
    ensures PaymentsPlain(ps) <==> forall i :: 0 <= i < |ps| ==> Plain(Texts(PaymentRow(ps[i])))
  {
    hide Plain, OptSet;
    assert forall i :: 0 <= i < |ps| ==> Texts(PaymentRow(ps[i])) == OptSet(ps[i].reference);
  }

  // ------------------------------------------------------------------ an export mentions every row

  lemma {:induction false} TableInside(rows: seq<Row>, i: nat)
    requires i < |rows|
    ensures KeysIn(Encode(rows[i])) <= KeysIn(Node(List, EncodeRows(rows)))
  {
    hide Encode;
    MentionedInside(EncodeRows(rows), i);
    assert EncodeRows(rows)[i] == Encode(rows[i]);
    hide KeysInAll;
  }

  lemma {:induction false} RowsMet(p: Payload, part: nat, rows: seq<Row>, i: nat, ids: map<string, string>)
    requires i < |rows| && part < 9 && PayloadParts(p)[part] == Node(List, EncodeRows(rows)) && ids.Keys == KeysInAll(PayloadParts(p))
    ensures Met(Texts(rows[i]), ids)
  {
    hide Met, Texts, Encode, EncodeRows, KeysIn, KeysInAll;
    TableInside(rows, i);
    PartMentioned(p, part);
    hide PayloadParts;
    RowMet(rows[i], ids);
  }

  lemma {:induction false} PartiesMet(s: Store, l: Listing, organization: Json, ids: map<string, string>)
    requires ListsStore(l, s) && ids.Keys == KeysInAll(PayloadParts(Exported(s, l, organization)))
    ensures forall id :: id in s.companies ==> Met(Texts(CompanyRow(id, s.companies[id])), ids)
    ensures forall id :: id in s.clients ==> Met(Texts(ClientRow(id, s.clients[id])), ids)
  {
    hide Met, Texts, EncodeRows, KeysInAll;
    var p := Exported(s, l, organization);
    forall id | id in s.companies ensures Met(Texts(CompanyRow(id, s.companies[id])), ids) {
      var i := ListedAt(l.companies, s.companies.Keys, id);
      RowsMet(p, 1, CompanyRows(s.companies, l.companies), i, ids);
    }
    forall id | id in s.clients ensures Met(Texts(ClientRow(id, s.clients[id])), ids) {
      var i := ListedAt(l.clients, s.clients.Keys, id);
      RowsMet(p, 2, ClientRows(s.clients, l.clients), i, ids);
    }
  }

  lemma {:induction false} DocumentsMet(s: Store, l: Listing, organization: Json, ids: map<string, string>)
    requires ListsStore(l, s) && ids.Keys == KeysInAll(PayloadParts(Exported(s, l, organization)))
    ensures forall id :: id in s.invoices ==> Met(Texts(InvoiceRow(id, s.invoices[id])), ids)
    ensures forall id :: id in s.quotes ==> Met(Texts(QuoteRow(id, s.quotes[id])), ids)
    ensures forall id :: id in s.notes ==> Met(Texts(NoteRow(id, s.notes[id])), ids)
  {
    hide Met, Texts, EncodeRows, KeysInAll;
    var p := Exported(s, l, organization);
    forall id | id in s.invoices ensures Met(Texts(InvoiceRow(id, s.invoices[id])), ids) {
      var i := ListedAt(l.invoices, s.invoices.Keys, id);
      RowsMet(p, 3, InvoiceRows(s.invoices, l.invoices), i, ids);
    }
    forall id | id in s.quotes ensures Met(Texts(QuoteRow(id, s.quotes[id])), ids) {
      var i := ListedAt(l.quotes, s.quotes.Keys, id);
      RowsMet(p, 4, QuoteRows(s.quotes, l.quotes), i, ids);
    }
    forall id | id in s.notes ensures Met(Texts(NoteRow(id, s.notes[id])), ids) {
      var i := ListedAt(l.notes, s.notes.Keys, id);
      RowsMet(p, 5, NoteRows(s.notes, l.notes), i, ids);
    }
  }

  lemma {:induction false} PaymentsAreMet(s: Store, l: Listing, organization: Json, ids: map<string, string>)
    requires ListsStore(l, s) && ids.Keys == KeysInAll(PayloadParts(Exported(s, l, organization)))
    requires forall p :: p in s.payments ==> p.invoiceId in s.invoices
    ensures PaymentsMet(s.payments, ids)
  {
    hide Met, EncodeRows, KeysInAll, PaymentsByInvoice, OptSet;
    var listed := PaymentsByInvoice(s.payments, l.invoices);
    GroupedIsPermutation(s.payments, l.invoices);
    forall i | 0 <= i < |s.payments| ensures Met(OptSet(s.payments[i].reference), ids) {
      assert s.payments[i] in multiset(listed);
      var j :| 0 <= j < |listed| && listed[j] == s.payments[i];
      assert PaymentRows(listed)[j] == PaymentRow(s.payments[i]);
      RowsMet(Exported(s, l, organization), 6, PaymentRows(listed), j, ids);
    }
  }

  lemma {:induction false} ExportMet(s: Store, l: Listing, organization: Json, ids: map<string, string>)
    requires Inv(s) && ListsStore(l, s) && ids.Keys == KeysInAll(PayloadParts(Exported(s, l, organization)))
    ensures LedgerMet(s, ids)
  {
    hide Inv, ListsStore, Exported, PayloadParts, KeysInAll, Met, Texts, PaymentsMet;
    Joins(s);
    PartiesMet(s, l, organization, ids);
    DocumentsMet(s, l, organization, ids);
    PaymentsAreMet(s, l, organization, ids);
  }

  /** A restore changes nothing but identifiers if and only if no text of the ledger, no name, comment, reason,
      description or reference, has the shape of an identifier or of a bucket. */
  lemma {:induction false} TextsSurviveIff(s: Store, l: Listing, organization: Json, t: Store, ids: map<string, string>, uuids: seq<string>)
    requires Inv(s) && KeysOk(s) && CanonicalStore(s) && ReferencesApart(s, ids)
    requires ListsStore(l, s)
    requires Renames(ids, Exported(s, l, organization), uuids)
    requires forall id :: id in uuids ==> Canonical(id) && id !in KeysInAll(PayloadParts(Exported(s, l, organization)))
    requires Inv(t) && ScopesOk(t) && t.companies == map[]
    ensures RestoreInto(t, RenamedPayload(Exported(s, l, organization), ids)).Ok?
    ensures KeepsTexts(s, RestoreInto(t, RenamedPayload(Exported(s, l, organization), ids)).value, ids) <==> PlainLedger(s)
  {
    hide *;
    DisasterRecovery(s, l, organization, t, ids, uuids);
    NewIdentifiers(ids, Exported(s, l, organization), uuids);
    ExportMet(s, l, organization, ids);
    CopyKeepsTextsIff(s, RestoreInto(t, RenamedPayload(Exported(s, l, organization), ids)).value, ids);
  }

  lemma {:induction false} NewIdentifiers(ids: map<string, string>, p: Payload, uuids: seq<string>)
    requires Renames(ids, p, uuids) && forall id :: id in uuids ==> Canonical(id) && id !in KeysInAll(PayloadParts(p))
    ensures Disjoint(ids) && ids.Keys == KeysInAll(PayloadParts(p))
  {
    hide Canonical, KeysInAll, PayloadParts;
  }
}
