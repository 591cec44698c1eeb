// Rows as they travel in a backup: how the models dump to JSON, how they validate back, and what the
// walk over identifiers does to them on the way (core/services/backup_service.py:162-186, 355-375).
module BackupCodec {
  import opened Common
  import opened Calendar
  import opened Money
  import opened Lines
  import opened Store
  import opened Transactions
  import opened BackupIds
  import opened Text

  /** A row of one of the restored tables, with its identifier. */
  datatype Row =
    | CompanyRow(id: Id, company: Company)
    | ClientRow(id: Id, client: Client)
    | InvoiceRow(id: Id, invoice: Invoice)
    | QuoteRow(id: Id, quote: Quote)
    | NoteRow(id: Id, note: CreditNote)
    | PaymentRow(payment: Payment)

  datatype Table = Companies | Clients | Invoices | Quotes | CreditNotes | Payments

  function TableOf(row: Row): Table {
    match row
    case CompanyRow(_, _) => Companies
    case ClientRow(_, _) => Clients
    case InvoiceRow(_, _) => Invoices
    case QuoteRow(_, _) => Quotes
    case NoteRow(_, _) => CreditNotes
    case PaymentRow(_) => Payments
  }

  // ------------------------------------------------------------------ leaves

  function CurrencyTag(c: Currency): nat {
    match c case EUR => 0 case USD => 1 case GBP => 2 case JPY => 3 case CAD => 4 case AUD => 5
  }

  function TagCurrency(t: nat): Currency {
    if t == 0 then EUR else if t == 1 then USD else if t == 2 then GBP else if t == 3 then JPY else if t == 4 then CAD else AUD
  }

  function CategoryTag(c: VatCategory): nat {
    match c
    case Standard => 0 case Zero => 1 case Exempt => 2 case ReverseCharge => 3 case IntraEu => 4 case Export => 5 case NotSubject => 6
  }

  function TagCategory(t: nat): VatCategory {
    if t == 0 then Standard else if t == 1 then Zero else if t == 2 then Exempt else if t == 3 then ReverseCharge
    else if t == 4 then IntraEu else if t == 5 then Export else NotSubject
  }

  function StatusTag(s: InvoiceStatus): nat {
    match s case Draft => 0 case Issued => 1 case Paid => 2 case PartiallyPaid => 3 case Overdue => 4 case Voided => 5
  }

  function TagStatus(t: nat): InvoiceStatus {
    if t == 0 then Draft else if t == 1 then Issued else if t == 2 then Paid else if t == 3 then PartiallyPaid
    else if t == 4 then Overdue else Voided
  }

  function QuoteTag(s: QuoteStatus): nat {
    match s case QuoteDraft => 0 case Sent => 1 case Accepted => 2 case Rejected => 3 case Expired => 4 case Converted => 5
  }

  function TagQuote(t: nat): QuoteStatus {
    if t == 0 then QuoteDraft else if t == 1 then Sent else if t == 2 then Accepted else if t == 3 then Rejected
    else if t == 4 then Expired else Converted
  }

  function SupplyTag(k: SupplyKind): nat {
    if k.Goods? then 0 else 1
  }

  function TagSupply(t: nat): SupplyKind {
    if t == 0 then Goods else Services
  }

  function OptText(o: Option<string>): Json {
    if o.Some? then Str(o.value) else Null
  }

  predicate IsOptText(j: Json) {
    j.Null? || j.Str?
  }

  function TextOf(j: Json): Option<string> {
    if j.Str? then Some(j.s) else None
  }

  predicate IsId(j: Json) {
    j.Str? && Canonical(j.s)
  }

  predicate IsOptId(j: Json) {
    j.Null? || IsId(j)
  }

  function OptDay(o: Option<Date>): Json {
    if o.Some? then Day(o.value) else Null
  }

  predicate IsOptDay(j: Json) {
    j.Null? || j.Day?
  }

  function DayOf(j: Json): Option<Date> {
    if j.Day? then Some(j.d) else None
  }

  function OptNat(o: Option<nat>): Json {
    if o.Some? then Int(o.value) else Null
  }

  predicate IsOptNat(j: Json) {
    j.Null? || (j.Int? && j.n >= 0)
  }

  function NatOf(j: Json): Option<nat> {
    if j.Int? && j.n >= 0 then Some(j.n) else None
  }

  function EncodeDiscount(o: Option<Discount>): Json {
    match o
    case None => Null
    case Some(d) => Node(Dict, [Tag(if d.kind.PERCENTAGE? then 0 else 1), Amount(d.amount), OptText(d.reason)])
  }

  predicate IsDiscount(j: Json) {
    j.Null?
    || (j.Node? && |j.items| == 3 && j.items[0].Tag? && j.items[0].t <= 1 && j.items[1].Amount? && j.items[1].x >= 0.0
        && IsOptText(j.items[2]))
  }

  function DiscountOf(j: Json): Option<Discount>
    requires IsDiscount(j)
  {
    if j.Null? then None
    else Some(Discount(if j.items[0].t == 0 then PERCENTAGE else FIXED, j.items[1].x, TextOf(j.items[2])))
  }

  lemma {:induction false} DiscountRoundTrip(o: Option<Discount>)
    requires ValidDiscount(o)
    ensures IsDiscount(EncodeDiscount(o)) && DiscountOf(EncodeDiscount(o)) == o
  {
  }

  // ------------------------------------------------------------------ lines

  function EncodeLine(l: InvoiceLine): Json {
    Node(Dict, [Int(l.lineNumber), Str(l.description), Amount(l.quantity), Amount(l.unitPrice), OptText(l.productId),
                Tag(SupplyTag(l.supplyKind)), Tag(CategoryTag(l.category)), Amount(l.rate), EncodeDiscount(l.discount)])
  }

  function DecodeLine(j: Json): Option<InvoiceLine> {
    if j.Node? && |j.items| == 9 && j.items[0].Int? && j.items[0].n >= 0 && j.items[1].Str? && j.items[2].Amount? && j.items[3].Amount?
       && IsOptId(j.items[4]) && j.items[5].Tag? && j.items[5].t <= 1 && j.items[6].Tag? && j.items[6].t <= 6
       && j.items[7].Amount? && IsDiscount(j.items[8])
    then
      var line := InvoiceLine(j.items[0].n, j.items[1].s, j.items[2].x, j.items[3].x, TextOf(j.items[4]),
                              TagSupply(j.items[5].t), TagCategory(j.items[6].t), j.items[7].x, DiscountOf(j.items[8]));
      if ValidLine(line) then Some(line) else None
    else None
  }

  function EncodeLines(ls: seq<InvoiceLine>): (r: seq<Json>)
    ensures |r| == |ls|
  {
    seq(|ls|, i requires 0 <= i < |ls| => EncodeLine(ls[i]))
  }

  function DecodeLines(items: seq<Json>): Option<seq<InvoiceLine>> {
    if items == [] then Some([])
    else
      var before, last := DecodeLines(items[..|items| - 1]), DecodeLine(items[|items| - 1]);
      if before.Some? && last.Some? then Some(before.value + [last.value]) else None
  }

  predicate CanonicalOpt(o: Option<string>) {
    o.Some? ==> Canonical(o.value)
  }

  lemma {:induction false} LineRoundTrip(l: InvoiceLine)
    requires ValidLine(l) && CanonicalOpt(l.productId)
    ensures DecodeLine(EncodeLine(l)) == Some(l)
  {
    DiscountRoundTrip(l.discount);
    hide EncodeDiscount, IsDiscount, DiscountOf, Canonical;
  }

  lemma {:induction false} LinesRoundTrip(ls: seq<InvoiceLine>)
    requires ValidLines(ls) && forall l :: l in ls ==> CanonicalOpt(l.productId)
    ensures DecodeLines(EncodeLines(ls)) == Some(ls)
  {
    hide EncodeLine, DecodeLine, CanonicalOpt, ValidLine;
    if ls != [] {
      var n := |ls| - 1;
      assert EncodeLines(ls)[..n] == EncodeLines(ls[..n]);
      forall l | l in ls[..n] ensures l in ls {
      }
      LinesRoundTrip(ls[..n]);
      assert ls[n] in ls;
      LineRoundTrip(ls[n]);
      assert ls == ls[..n] + [ls[n]];
    }
  }

  // ------------------------------------------------------------------ what the walk does to identifiers

  function Renamed(id: Id, ids: map<string, string>): Id {
    if id in ids then ids[id] else id
  }

  function RenamedOpt(o: Option<Id>, ids: map<string, string>): Option<Id> {
    if o.Some? then Some(Renamed(o.value, ids)) else None
  }

  lemma {:induction false} RenameId(id: Id, ids: map<string, string>)
    requires Canonical(id)
    ensures FiledUnder(id) == Some(id) && RenameText(id, ids) == Renamed(id, ids)
    ensures Rename(Str(id), ids) == Str(Renamed(id, ids))
  {
  }

  /** The walk does not know identifiers from texts: whatever has the shape of one is rewritten. */
  function RenamedText(o: Option<string>, ids: map<string, string>): Option<string> {
    if o.Some? then Some(RenameText(o.value, ids)) else None
  }

  ghost predicate CanonicalValues(ids: map<string, string>) {
    forall k :: k in ids ==> Canonical(ids[k])
  }

  /** No text vanishes. */
  lemma {:induction false} RenamedNonEmpty(s: string, ids: map<string, string>)
    requires CanonicalValues(ids) && s != ""
    ensures RenameText(s, ids) != ""
  {
    hide Lower, FiledUnder, MatchesUuid;
  }

  lemma {:induction false} RenameStr(s: string, ids: map<string, string>)
    ensures Rename(Str(s), ids) == Str(RenameText(s, ids))
  {
  }

  lemma {:induction false} RenameOptText(o: Option<string>, ids: map<string, string>)
    ensures Rename(OptText(o), ids) == OptText(RenamedText(o, ids))
    ensures CanonicalOpt(o) ==> RenamedText(o, ids) == RenamedOpt(o, ids)
  {
    if o.Some? && Canonical(o.value) {
      RenameId(o.value, ids);
    }
    hide Canonical, RenameText;
  }

  // RenameAll on records of a few fields.

  lemma {:induction false} RenameFour(a: Json, b: Json, c: Json, d: Json, ids: map<string, string>)
    ensures RenameAll([a, b, c, d], ids)
         == [Rename(a, ids), Rename(b, ids), Rename(c, ids), Rename(d, ids)]
  {
    hide Rename, RenameAll;
  }

  lemma {:induction false} RenameSix(a: Json, b: Json, c: Json, d: Json, e: Json, f: Json, ids: map<string, string>)
    ensures RenameAll([a, b, c, d, e, f], ids)
         == [Rename(a, ids), Rename(b, ids), Rename(c, ids), Rename(d, ids), Rename(e, ids), Rename(f, ids)]
  {
    hide Rename, RenameAll;
  }

  lemma {:induction false} RenameTriple(a: Json, b: Json, c: Json, ids: map<string, string>)
    ensures Rename(Node(Dict, [a, b, c]), ids) == Node(Dict, [Rename(a, ids), Rename(b, ids), Rename(c, ids)])
  {
    assert RenameAll([a, b, c], ids) == [Rename(a, ids), Rename(b, ids), Rename(c, ids)];
  }

  function RenamedDiscount(o: Option<Discount>, ids: map<string, string>): Option<Discount> {
    match o
    case None => None
    case Some(d) => Some(d.(reason := RenamedText(d.reason, ids)))
  }

  lemma {:induction false} RenameDiscount(o: Option<Discount>, ids: map<string, string>)
    ensures Rename(EncodeDiscount(o), ids) == EncodeDiscount(RenamedDiscount(o, ids))
  {
    if o.Some? {
      var kind := Tag(if o.value.kind.PERCENTAGE? then 0 else 1);
      RenameOptText(o.value.reason, ids);
      RenameTriple(kind, Amount(o.value.amount), OptText(o.value.reason), ids);
      hide RenameAll, OptText, RenamedText;
    }
  }

  function RenamedLine(l: InvoiceLine, ids: map<string, string>): InvoiceLine {
    l.(description := RenameText(l.description, ids), productId := RenamedOpt(l.productId, ids),
       discount := RenamedDiscount(l.discount, ids))
  }

  function RenamedLines(ls: seq<InvoiceLine>, ids: map<string, string>): (r: seq<InvoiceLine>)
    ensures |r| == |ls|
  {
    seq(|ls|, i requires 0 <= i < |ls| => RenamedLine(ls[i], ids))
  }

  lemma {:induction false} RenameLine(l: InvoiceLine, ids: map<string, string>)
    requires CanonicalOpt(l.productId)
    ensures Rename(EncodeLine(l), ids) == EncodeLine(RenamedLine(l, ids))
  {
    RenameStr(l.description, ids);
    RenameOptText(l.productId, ids);
    RenameDiscount(l.discount, ids);
    hide RenameAll, OptText, Canonical, EncodeDiscount, RenamedOpt, RenamedText, RenamedDiscount, RenameText, SupplyTag, CategoryTag,
         CanonicalOpt, FiledUnder;
    forall i | 0 <= i < 9 ensures RenameAll(EncodeLine(l).items, ids)[i] == EncodeLine(RenamedLine(l, ids)).items[i] {
    }
  }

  lemma {:induction false} RenameLines(ls: seq<InvoiceLine>, ids: map<string, string>)
    requires forall l :: l in ls ==> CanonicalOpt(l.productId)
    ensures RenameAll(EncodeLines(ls), ids) == EncodeLines(RenamedLines(ls, ids))
  {
    hide CanonicalOpt, EncodeLine, Rename, RenamedLine;
    forall i | 0 <= i < |ls| ensures RenameAll(EncodeLines(ls), ids)[i] == EncodeLines(RenamedLines(ls, ids))[i] {
      assert ls[i] in ls;
      RenameLine(ls[i], ids);
    }
  }

  // ------------------------------------------------------------------ credit note lines

  function EncodeNoteLine(l: CreditNoteLine): Json {
    Node(Dict, [Int(l.lineNumber), Str(l.description), Amount(l.quantity), Amount(l.unitPrice), OptText(l.productId),
                Tag(SupplyTag(l.supplyKind)), Tag(CategoryTag(l.category)), Amount(l.rate)])
  }

  function DecodeNoteLine(j: Json): Option<CreditNoteLine> {
    if j.Node? && |j.items| == 8 && j.items[0].Int? && j.items[0].n >= 0 && j.items[1].Str? && j.items[2].Amount? && j.items[3].Amount?
       && IsOptId(j.items[4]) && j.items[5].Tag? && j.items[5].t <= 1 && j.items[6].Tag? && j.items[6].t <= 6 && j.items[7].Amount?
    then
      var line := CreditNoteLine(j.items[0].n, j.items[1].s, j.items[2].x, j.items[3].x, TextOf(j.items[4]),
                                 TagSupply(j.items[5].t), TagCategory(j.items[6].t), j.items[7].x);
      if ValidLine(AsInvoiceLine(line)) then Some(line) else None
    else None
  }

  function EncodeNoteLines(ls: seq<CreditNoteLine>): (r: seq<Json>)
    ensures |r| == |ls|
  {
    seq(|ls|, i requires 0 <= i < |ls| => EncodeNoteLine(ls[i]))
  }

  function DecodeNoteLines(items: seq<Json>): Option<seq<CreditNoteLine>> {
    if items == [] then Some([])
    else
      var before, last := DecodeNoteLines(items[..|items| - 1]), DecodeNoteLine(items[|items| - 1]);
      if before.Some? && last.Some? then Some(before.value + [last.value]) else None
  }

  predicate ValidNoteLine(l: CreditNoteLine) {
    ValidLine(AsInvoiceLine(l))
  }

  lemma {:induction false} NoteLineRoundTrip(l: CreditNoteLine)
    requires ValidNoteLine(l) && CanonicalOpt(l.productId)
    ensures DecodeNoteLine(EncodeNoteLine(l)) == Some(l)
  {
    hide Canonical;
  }

  lemma {:induction false} NoteLinesRoundTrip(ls: seq<CreditNoteLine>)
    requires forall l :: l in ls ==> ValidNoteLine(l) && CanonicalOpt(l.productId)
    ensures DecodeNoteLines(EncodeNoteLines(ls)) == Some(ls)
  {
    hide EncodeNoteLine, DecodeNoteLine, CanonicalOpt, ValidNoteLine;
    if ls != [] {
      var n := |ls| - 1;
      assert EncodeNoteLines(ls)[..n] == EncodeNoteLines(ls[..n]);
      forall l | l in ls[..n] ensures l in ls {
      }
      NoteLinesRoundTrip(ls[..n]);
      assert ls[n] in ls;
      NoteLineRoundTrip(ls[n]);
      assert ls == ls[..n] + [ls[n]];
    }
  }

  function RenamedNoteLine(l: CreditNoteLine, ids: map<string, string>): CreditNoteLine {
    l.(description := RenameText(l.description, ids), productId := RenamedOpt(l.productId, ids))
  }

  function RenamedNoteLines(ls: seq<CreditNoteLine>, ids: map<string, string>): (r: seq<CreditNoteLine>)
    ensures |r| == |ls|
  {
    seq(|ls|, i requires 0 <= i < |ls| => RenamedNoteLine(ls[i], ids))
  }

  lemma {:induction false} RenameNoteLine(l: CreditNoteLine, ids: map<string, string>)
    requires CanonicalOpt(l.productId)
    ensures Rename(EncodeNoteLine(l), ids) == EncodeNoteLine(RenamedNoteLine(l, ids))
  {
    RenameStr(l.description, ids);
    RenameOptText(l.productId, ids);
    hide RenameAll, OptText, Canonical, RenamedOpt, RenamedText, RenameText;
    assert RenameAll(EncodeNoteLine(l).items, ids) == EncodeNoteLine(RenamedNoteLine(l, ids)).items;
  }

  lemma {:induction false} RenameNoteLines(ls: seq<CreditNoteLine>, ids: map<string, string>)
    requires forall l :: l in ls ==> CanonicalOpt(l.productId)
    ensures RenameAll(EncodeNoteLines(ls), ids) == EncodeNoteLines(RenamedNoteLines(ls, ids))
  {
    hide CanonicalOpt, EncodeNoteLine, Rename, RenamedNoteLine;
    forall i | 0 <= i < |ls| ensures RenameAll(EncodeNoteLines(ls), ids)[i] == EncodeNoteLines(RenamedNoteLines(ls, ids))[i] {
      assert ls[i] in ls;
      RenameNoteLine(ls[i], ids);
    }
  }

  // ------------------------------------------------------------------ rows

  function EncodeCompany(id: Id, c: Company): seq<Json> {
    [Str(id), Str(c.name), Str(c.prefix), Str(c.countryCode), Tag(CurrencyTag(c.defaultCurrency)), Str(c.defaultTemplate)]
  }

  function EncodeClient(id: Id, c: Client): seq<Json> {
    [Str(id), Str(c.companyId), Str(c.name), Str(c.countryCode), Bool(c.isBusiness), OptText(c.vatNumber)]
  }

  // Wide models are dumped in parts; the walk does not see the difference.

  datatype Head = Head(id: Id, companyId: Id, clientId: Id, reference: Option<string>, sequence: Option<nat>, issueDate: Date, until: Option<Date>)

  datatype Content = Content(
    currency: Currency, lines: seq<InvoiceLine>, discount: Option<Discount>, comments: Option<string>, terms: Option<string>, template: string)

  datatype Money4 = Money4(subtotal: int, totalDiscount: int, totalVat: int, totalTtc: int)

  function EncodeHead(h: Head): Json {
    Node(Dict, [Str(h.id), Str(h.companyId), Str(h.clientId), OptText(h.reference), OptNat(h.sequence), Day(h.issueDate), OptDay(h.until)])
  }

  function EncodeContent(c: Content): Json {
    Node(Dict, [Tag(CurrencyTag(c.currency)), Node(List, EncodeLines(c.lines)), EncodeDiscount(c.discount), OptText(c.comments),
                OptText(c.terms), Str(c.template)])
  }

  function EncodeMoney(m: Money4): Json {
    Node(Dict, [Int(m.subtotal), Int(m.totalDiscount), Int(m.totalVat), Int(m.totalTtc)])
  }

  function InvoiceHead(id: Id, i: Invoice): Head {
    Head(id, i.companyId, i.clientId, i.reference, i.sequence, i.issueDate, i.dueDate)
  }

  function InvoiceContent(i: Invoice): Content {
    Content(i.currency, i.lines, i.discount, i.comments, i.paymentTerms, i.template)
  }

  function QuoteHead(id: Id, q: Quote): Head {
    Head(id, q.companyId, q.clientId, Some(q.reference), Some(q.sequence), q.issueDate, q.validUntil)
  }

  function QuoteContent(q: Quote): Content {
    Content(q.currency, q.lines, q.discount, q.comments, q.terms, q.template)
  }

  function EncodeInvoice(id: Id, i: Invoice): seq<Json> {
    [EncodeHead(InvoiceHead(id, i)), EncodeContent(InvoiceContent(i)),
     EncodeMoney(Money4(i.subtotal, i.totalDiscount, i.totalVat, i.totalTtc)),
     Node(Dict, [Tag(StatusTag(i.status)), OptDay(i.voidedAt), OptText(i.voidedReason), OptText(i.voidedBy)])]
  }

  function EncodeQuote(id: Id, q: Quote): seq<Json> {
    [EncodeHead(QuoteHead(id, q)), EncodeContent(QuoteContent(q)),
     EncodeMoney(Money4(q.subtotal, q.totalDiscount, q.totalVat, q.totalTtc)),
     Node(Dict, [Tag(QuoteTag(q.status)), OptText(q.decisionNote), OptText(q.convertedInvoiceId)])]
  }

  function EncodeNote(id: Id, n: CreditNote): seq<Json> {
    [EncodeHead(Head(id, n.companyId, n.clientId, Some(n.reference), Some(n.sequence), n.issueDate, None)),
     Node(Dict, [Str(n.invoiceId), Str(n.reason), Tag(CurrencyTag(n.currency)), Node(List, EncodeNoteLines(n.lines))]),
     Node(Dict, [Int(n.subtotal), Int(n.totalVat), Int(n.totalTtc)])]
  }

  function EncodePayment(p: Payment): seq<Json> {
    [Str(p.invoiceId), Amount(p.amount), Tag(CurrencyTag(p.currency)), Day(p.paidOn), OptText(p.reference)]
  }

  /** `model_dump(mode="json")`. */
  function Encode(row: Row): Json {
    Node(Dict, match row
      case CompanyRow(id, company) => EncodeCompany(id, company)
      case ClientRow(id, client) => EncodeClient(id, client)
      case InvoiceRow(id, invoice) => EncodeInvoice(id, invoice)
      case QuoteRow(id, quote) => EncodeQuote(id, quote)
      case NoteRow(id, note) => EncodeNote(id, note)
      case PaymentRow(payment) => EncodePayment(payment))
  }

  predicate IsTag(j: Json, most: nat) {
    j.Tag? && j.t <= most
  }

  predicate IsNat(j: Json) {
    j.Int? && j.n >= 0
  }

  predicate IsLines(j: Json) {
    j.Node? && DecodeLines(j.items).Some?
  }

  predicate IsNoteLines(j: Json) {
    j.Node? && DecodeNoteLines(j.items).Some?
  }

  function DecodeCompany(v: seq<Json>): Option<Row> {
    if |v| == 6 && IsId(v[0]) && v[1].Str? && v[2].Str? && |v[2].s| <= PREFIX_LENGTH && v[3].Str? && IsTag(v[4], 5) && v[5].Str?
    then Some(CompanyRow(v[0].s, Company(v[1].s, v[2].s, v[3].s, TagCurrency(v[4].t), v[5].s))) else None
  }

  function DecodeClient(v: seq<Json>): Option<Row> {
    if |v| == 6 && IsId(v[0]) && IsId(v[1]) && v[2].Str? && v[3].Str? && v[4].Bool? && IsOptText(v[5])
    then Some(ClientRow(v[0].s, Client(v[1].s, v[2].s, v[3].s, v[4].b, TextOf(v[5])))) else None
  }

  predicate IsDict(j: Json, n: nat) {
    j.Node? && |j.items| == n
  }

  function DecodeHead(j: Json): Option<Head> {
    if !IsDict(j, 7) then None
    else
      var v := j.items;
      if IsId(v[0]) && IsId(v[1]) && IsId(v[2]) && IsOptText(v[3]) && IsOptNat(v[4]) && v[5].Day? && IsOptDay(v[6])
      then Some(Head(v[0].s, v[1].s, v[2].s, TextOf(v[3]), NatOf(v[4]), v[5].d, DayOf(v[6]))) else None
  }

  function DecodeContent(j: Json): Option<Content> {
    if !IsDict(j, 6) then None
    else
      var v := j.items;
      if IsTag(v[0], 5) && IsLines(v[1]) && IsDiscount(v[2]) && IsOptText(v[3]) && IsOptText(v[4]) && v[5].Str?
      then Some(Content(TagCurrency(v[0].t), DecodeLines(v[1].items).value, DiscountOf(v[2]), TextOf(v[3]), TextOf(v[4]), v[5].s))
      else None
  }

  function DecodeMoney(j: Json): Option<Money4> {
    if !IsDict(j, 4) then None
    else
      var v := j.items;
      if IsNat(v[0]) && IsNat(v[1]) && IsNat(v[2]) && IsNat(v[3]) then Some(Money4(v[0].n, v[1].n, v[2].n, v[3].n)) else None
  }

  function DecodeInvoice(v: seq<Json>): Option<Row> {
    if |v| != 4 || !IsDict(v[3], 4) then None
    else
      var h, c, m, w := DecodeHead(v[0]), DecodeContent(v[1]), DecodeMoney(v[2]), v[3].items;
      if h.None? || c.None? || m.None? || !IsTag(w[0], 5) || !IsOptDay(w[1]) || !IsOptText(w[2]) || !IsOptId(w[3]) then None
      else Some(InvoiceRow(h.value.id, Invoice(
        h.value.companyId, h.value.clientId, h.value.reference, h.value.sequence, h.value.issueDate, h.value.until,
        c.value.currency, c.value.lines, c.value.discount, c.value.comments, c.value.terms, c.value.template,
        m.value.subtotal, m.value.totalDiscount, m.value.totalVat, m.value.totalTtc,
        TagStatus(w[0].t), DayOf(w[1]), TextOf(w[2]), TextOf(w[3]))))
  }

  function DecodeQuote(v: seq<Json>): Option<Row> {
    if |v| != 4 || !IsDict(v[3], 3) then None
    else
      var h, c, m, w := DecodeHead(v[0]), DecodeContent(v[1]), DecodeMoney(v[2]), v[3].items;
      if h.None? || h.value.reference.None? || h.value.sequence.None? || c.None? || m.None?
         || !IsTag(w[0], 5) || !IsOptText(w[1]) || !IsOptId(w[2]) then None
      else Some(QuoteRow(h.value.id, Quote(
        h.value.companyId, h.value.clientId, h.value.reference.value, h.value.sequence.value, h.value.issueDate, h.value.until,
        c.value.currency, c.value.lines, c.value.discount, c.value.comments, c.value.terms, c.value.template,
        m.value.subtotal, m.value.totalDiscount, m.value.totalVat, m.value.totalTtc,
        TagQuote(w[0].t), TextOf(w[1]), TextOf(w[2]))))
  }

  function DecodeNote(v: seq<Json>): Option<Row> {
    if |v| != 3 || !IsDict(v[1], 4) || !IsDict(v[2], 3) then None
    else
      var h, w, m := DecodeHead(v[0]), v[1].items, v[2].items;
      if h.None? || h.value.reference.None? || h.value.sequence.None? || !IsId(w[0]) || !w[1].Str? || !IsTag(w[2], 5)
         || !IsNoteLines(w[3]) || !IsNat(m[0]) || !IsNat(m[1]) || !IsNat(m[2]) then None
      else Some(NoteRow(h.value.id, CreditNote(
        h.value.companyId, h.value.clientId, w[0].s, h.value.reference.value, h.value.sequence.value, h.value.issueDate, w[1].s,
        TagCurrency(w[2].t), DecodeNoteLines(w[3].items).value, m[0].n, m[1].n, m[2].n)))
  }

  function DecodePayment(v: seq<Json>): Option<Row> {
    if |v| == 5 && IsId(v[0]) && v[1].Amount? && v[1].x > 0.0 && IsTag(v[2], 5) && v[3].Day? && IsOptText(v[4])
    then Some(PaymentRow(Payment(v[0].s, v[1].x, TagCurrency(v[2].t), v[3].d, TextOf(v[4])))) else None
  }

  /** `model_cls.model_validate(data)`. */
  function Decode(table: Table, j: Json): Option<Row> {
    if !j.Node? || !j.kind.Dict? then None
    else match table
      case Companies => DecodeCompany(j.items)
      case Clients => DecodeClient(j.items)
      case Invoices => DecodeInvoice(j.items)
      case Quotes => DecodeQuote(j.items)
      case CreditNotes => DecodeNote(j.items)
      case Payments => DecodePayment(j.items)
  }

  // ------------------------------------------------------------------ round trip

  /** What the models validate. */
  predicate ValidRow(row: Row) {
    match row
    case CompanyRow(_, c) => |c.prefix| <= PREFIX_LENGTH
    case InvoiceRow(_, i) =>
      ValidLines(i.lines) && ValidDiscount(i.discount) && ValidTotals(i.subtotal, i.totalDiscount, i.totalVat, i.totalTtc)
    case QuoteRow(_, q) =>
      ValidLines(q.lines) && ValidDiscount(q.discount) && ValidTotals(q.subtotal, q.totalDiscount, q.totalVat, q.totalTtc)
    case NoteRow(_, n) =>
      (forall l :: l in n.lines ==> ValidNoteLine(l)) && n.subtotal >= 0 && n.totalVat >= 0 && n.totalTtc >= 0
    case PaymentRow(p) => p.amount > 0.0
    case _ => true
  }

  predicate CanonicalLines(ls: seq<InvoiceLine>) {
    forall l :: l in ls ==> CanonicalOpt(l.productId)
  }

  /** Identifiers are UUIDs, written as the program writes them. */
  predicate CanonicalRow(row: Row) {
    match row
    case CompanyRow(id, _) => Canonical(id)
    case ClientRow(id, c) => Canonical(id) && Canonical(c.companyId)
    case InvoiceRow(id, i) =>
      Canonical(id) && Canonical(i.companyId) && Canonical(i.clientId) && CanonicalOpt(i.voidedBy) && CanonicalLines(i.lines)
    case QuoteRow(id, q) =>
      Canonical(id) && Canonical(q.companyId) && Canonical(q.clientId) && CanonicalOpt(q.convertedInvoiceId) && CanonicalLines(q.lines)
    case NoteRow(id, n) =>
      Canonical(id) && Canonical(n.companyId) && Canonical(n.clientId) && Canonical(n.invoiceId)
      && forall l :: l in n.lines ==> CanonicalOpt(l.productId)
    case PaymentRow(p) => Canonical(p.invoiceId)
  }

  lemma {:induction false} HeadRoundTrip(h: Head)
    requires Canonical(h.id) && Canonical(h.companyId) && Canonical(h.clientId)
    ensures DecodeHead(EncodeHead(h)) == Some(h)
  {
    hide Canonical;
  }

  lemma {:induction false} CurrencyRoundTrip(c: Currency)
    ensures CurrencyTag(c) <= 5 && TagCurrency(CurrencyTag(c)) == c
  {
  }

  lemma {:induction false} TextRoundTrip(o: Option<string>)
    ensures IsOptText(OptText(o)) && TextOf(OptText(o)) == o
  {
  }

  lemma {:induction false} ContentRoundTrip(c: Content)
    requires ValidLines(c.lines) && ValidDiscount(c.discount) && CanonicalLines(c.lines)
    ensures DecodeContent(EncodeContent(c)) == Some(c)
  {
    DiscountRoundTrip(c.discount);
    LinesRoundTrip(c.lines);
    CurrencyRoundTrip(c.currency);
    TextRoundTrip(c.comments);
    TextRoundTrip(c.terms);
    hide EncodeDiscount, IsDiscount, DiscountOf, Canonical, DecodeLines, EncodeLines, CurrencyTag, TagCurrency, OptText, TextOf, IsOptText,
         ValidLines, ValidDiscount, CanonicalLines;
  }

  lemma {:induction false} MoneyRoundTrip(m: Money4)
    requires ValidTotals(m.subtotal, m.totalDiscount, m.totalVat, m.totalTtc)
    ensures DecodeMoney(EncodeMoney(m)) == Some(m)
  {
  }

  lemma {:induction false} InvoiceRoundTrip(id: Id, i: Invoice)
    requires ValidRow(InvoiceRow(id, i)) && CanonicalRow(InvoiceRow(id, i))
    ensures DecodeInvoice(EncodeInvoice(id, i)) == Some(InvoiceRow(id, i))
  {
    hide DecodeHead, EncodeHead, DecodeContent, EncodeContent, DecodeMoney, EncodeMoney, Canonical, CanonicalLines;
    HeadRoundTrip(InvoiceHead(id, i));
    ContentRoundTrip(InvoiceContent(i));
    MoneyRoundTrip(Money4(i.subtotal, i.totalDiscount, i.totalVat, i.totalTtc));
  }

  lemma {:induction false} QuoteRoundTrip(id: Id, q: Quote)
    requires ValidRow(QuoteRow(id, q)) && CanonicalRow(QuoteRow(id, q))
    ensures DecodeQuote(EncodeQuote(id, q)) == Some(QuoteRow(id, q))
  {
    hide DecodeHead, EncodeHead, DecodeContent, EncodeContent, DecodeMoney, EncodeMoney, Canonical, CanonicalLines;
    HeadRoundTrip(QuoteHead(id, q));
    ContentRoundTrip(QuoteContent(q));
    MoneyRoundTrip(Money4(q.subtotal, q.totalDiscount, q.totalVat, q.totalTtc));
  }

  lemma {:induction false} NoteRoundTrip(id: Id, n: CreditNote)
    requires ValidRow(NoteRow(id, n)) && CanonicalRow(NoteRow(id, n))
    ensures DecodeNote(EncodeNote(id, n)) == Some(NoteRow(id, n))
  {
    hide DecodeHead, EncodeHead, Canonical, DecodeNoteLines, EncodeNoteLines, ValidNoteLine, CanonicalOpt;
    HeadRoundTrip(Head(id, n.companyId, n.clientId, Some(n.reference), Some(n.sequence), n.issueDate, None));
    NoteLinesRoundTrip(n.lines);
  }

  /** What is dumped validates back to the same row, for every table. */
  lemma {:induction false} RowRoundTrip(row: Row)
    requires ValidRow(row) && CanonicalRow(row)
    ensures Decode(TableOf(row), Encode(row)) == Some(row)
  {
    hide DecodeHead, EncodeHead, DecodeContent, EncodeContent, DecodeMoney, EncodeMoney, DecodeNoteLines, EncodeNoteLines,
         CanonicalLines, ValidNoteLine, CanonicalOpt;
    match row
    case InvoiceRow(id, i) =>
      InvoiceRoundTrip(id, i);
      hide EncodeInvoice, DecodeInvoice;
    case QuoteRow(id, q) =>
      QuoteRoundTrip(id, q);
      hide EncodeQuote, DecodeQuote;
    case NoteRow(id, n) =>
      NoteRoundTrip(id, n);
      hide EncodeNote, DecodeNote;
    case _ => hide Canonical;
  }

  // ------------------------------------------------------------------ the walk over a row

  function RenamedCompany(c: Company, ids: map<string, string>): Company {
    c.(name := RenameText(c.name, ids), prefix := RenameText(c.prefix, ids), countryCode := RenameText(c.countryCode, ids),
       defaultTemplate := RenameText(c.defaultTemplate, ids))
  }

  function RenamedClient(c: Client, ids: map<string, string>): Client {
    c.(companyId := Renamed(c.companyId, ids), name := RenameText(c.name, ids), countryCode := RenameText(c.countryCode, ids),
       vatNumber := RenamedText(c.vatNumber, ids))
  }

  function RenamedInvoice(i: Invoice, ids: map<string, string>): Invoice {
    i.(companyId := Renamed(i.companyId, ids), clientId := Renamed(i.clientId, ids), reference := RenamedText(i.reference, ids),
       lines := RenamedLines(i.lines, ids), discount := RenamedDiscount(i.discount, ids), comments := RenamedText(i.comments, ids),
       paymentTerms := RenamedText(i.paymentTerms, ids), template := RenameText(i.template, ids),
       voidedReason := RenamedText(i.voidedReason, ids), voidedBy := RenamedOpt(i.voidedBy, ids))
  }

  function RenamedQuote(q: Quote, ids: map<string, string>): Quote {
    q.(companyId := Renamed(q.companyId, ids), clientId := Renamed(q.clientId, ids), reference := RenameText(q.reference, ids),
       lines := RenamedLines(q.lines, ids), discount := RenamedDiscount(q.discount, ids), comments := RenamedText(q.comments, ids),
       terms := RenamedText(q.terms, ids), template := RenameText(q.template, ids),
       decisionNote := RenamedText(q.decisionNote, ids), convertedInvoiceId := RenamedOpt(q.convertedInvoiceId, ids))
  }

  function RenamedNote(n: CreditNote, ids: map<string, string>): CreditNote {
    n.(companyId := Renamed(n.companyId, ids), clientId := Renamed(n.clientId, ids), invoiceId := Renamed(n.invoiceId, ids),
       reference := RenameText(n.reference, ids), reason := RenameText(n.reason, ids), lines := RenamedNoteLines(n.lines, ids))
  }

  function RenamedPayment(p: Payment, ids: map<string, string>): Payment {
    p.(invoiceId := Renamed(p.invoiceId, ids), reference := RenamedText(p.reference, ids))
  }

  /** The same row under new identifiers; a text in the shape of one is taken for one. */
  function RenamedRow(row: Row, ids: map<string, string>): Row {
    match row
    case CompanyRow(id, company) => CompanyRow(Renamed(id, ids), RenamedCompany(company, ids))
    case ClientRow(id, client) => ClientRow(Renamed(id, ids), RenamedClient(client, ids))
    case InvoiceRow(id, invoice) => InvoiceRow(Renamed(id, ids), RenamedInvoice(invoice, ids))
    case QuoteRow(id, quote) => QuoteRow(Renamed(id, ids), RenamedQuote(quote, ids))
    case NoteRow(id, note) => NoteRow(Renamed(id, ids), RenamedNote(note, ids))
    case PaymentRow(payment) => PaymentRow(RenamedPayment(payment, ids))
  }

  lemma {:induction false} RenameLinesNode(ls: seq<InvoiceLine>, ids: map<string, string>)
    requires CanonicalLines(ls)
    ensures Rename(Node(List, EncodeLines(ls)), ids) == Node(List, EncodeLines(RenamedLines(ls, ids)))
  {
    RenameLines(ls, ids);
  }

  function RenamedHead(h: Head, ids: map<string, string>): Head {
    h.(id := Renamed(h.id, ids), companyId := Renamed(h.companyId, ids), clientId := Renamed(h.clientId, ids),
       reference := RenamedText(h.reference, ids))
  }

  lemma {:induction false} RenameHead(h: Head, ids: map<string, string>)
    requires Canonical(h.id) && Canonical(h.companyId) && Canonical(h.clientId)
    ensures Rename(EncodeHead(h), ids) == EncodeHead(RenamedHead(h, ids))
  {
    RenameId(h.id, ids);
    RenameId(h.companyId, ids);
    RenameId(h.clientId, ids);
    RenameOptText(h.reference, ids);
    hide RenameAll, FiledUnder, Canonical, OptText, RenameText, RenamedText, Renamed;
    assert RenameAll(EncodeHead(h).items, ids) == EncodeHead(RenamedHead(h, ids)).items;
  }

  function RenamedContent(c: Content, ids: map<string, string>): Content {
    c.(lines := RenamedLines(c.lines, ids), discount := RenamedDiscount(c.discount, ids), comments := RenamedText(c.comments, ids),
       terms := RenamedText(c.terms, ids), template := RenameText(c.template, ids))
  }

  lemma {:induction false} RenameContent(c: Content, ids: map<string, string>)
    requires CanonicalLines(c.lines)
    ensures Rename(EncodeContent(c), ids) == EncodeContent(RenamedContent(c, ids))
  {
    RenameOptText(c.comments, ids);
    RenameOptText(c.terms, ids);
    RenameStr(c.template, ids);
    RenameDiscount(c.discount, ids);
    RenameLinesNode(c.lines, ids);
    hide RenameAll, FiledUnder, OptText, EncodeDiscount, EncodeLines, RenamedLines, RenameText, RenamedText, RenamedDiscount, CanonicalLines;
    RenameSix(Tag(CurrencyTag(c.currency)), Node(List, EncodeLines(c.lines)), EncodeDiscount(c.discount), OptText(c.comments),
              OptText(c.terms), Str(c.template), ids);
  }

  lemma {:induction false} RenameMoney(m: Money4, ids: map<string, string>)
    ensures Rename(EncodeMoney(m), ids) == EncodeMoney(m)
  {
    assert RenameAll(EncodeMoney(m).items, ids) == EncodeMoney(m).items;
  }

  lemma {:induction false} RenameStatus(t: nat, at: Json, reason: Option<string>, link: Option<Id>, ids: map<string, string>)
    requires CanonicalOpt(link) && IsOptDay(at)
    ensures Rename(Node(Dict, [Tag(t), at, OptText(reason), OptText(link)]), ids)
         == Node(Dict, [Tag(t), at, OptText(RenamedText(reason, ids)), OptText(RenamedOpt(link, ids))])
    ensures Rename(Node(Dict, [Tag(t), OptText(reason), OptText(link)]), ids)
         == Node(Dict, [Tag(t), OptText(RenamedText(reason, ids)), OptText(RenamedOpt(link, ids))])
  {
    RenameOptText(reason, ids);
    RenameOptText(link, ids);
    hide RenameAll, CanonicalOpt, OptText, RenamedOpt, RenamedText, RenameText;
    assert RenameAll([Tag(t), at, OptText(reason), OptText(link)], ids)
        == [Tag(t), at, OptText(RenamedText(reason, ids)), OptText(RenamedOpt(link, ids))];
    assert RenameAll([Tag(t), OptText(reason), OptText(link)], ids)
        == [Tag(t), OptText(RenamedText(reason, ids)), OptText(RenamedOpt(link, ids))];
  }

  lemma {:induction false} RenameInvoice(id: Id, i: Invoice, ids: map<string, string>)
    requires CanonicalRow(InvoiceRow(id, i))
    ensures RenameAll(EncodeInvoice(id, i), ids) == EncodeInvoice(Renamed(id, ids), RenamedInvoice(i, ids))
  {
    hide RenameAll, Canonical, CanonicalOpt, CanonicalLines, OptText, EncodeHead, EncodeContent, EncodeMoney,
         RenamedLines, RenamedOpt, RenamedText, RenamedDiscount, RenameText, Renamed, StatusTag, Rename;
    RenameHead(InvoiceHead(id, i), ids);
    RenameContent(InvoiceContent(i), ids);
    RenameMoney(Money4(i.subtotal, i.totalDiscount, i.totalVat, i.totalTtc), ids);
    RenameStatus(StatusTag(i.status), OptDay(i.voidedAt), i.voidedReason, i.voidedBy, ids);
  }

  lemma {:induction false} RenameQuote(id: Id, q: Quote, ids: map<string, string>)
    requires CanonicalRow(QuoteRow(id, q))
    ensures RenameAll(EncodeQuote(id, q), ids) == EncodeQuote(Renamed(id, ids), RenamedQuote(q, ids))
  {
    hide RenameAll, Canonical, CanonicalOpt, CanonicalLines, OptText, EncodeHead, EncodeContent, EncodeMoney,
         RenamedLines, RenamedOpt, RenamedDiscount, RenameText, Renamed, QuoteTag, Rename;
    RenameHead(QuoteHead(id, q), ids);
    RenameContent(QuoteContent(q), ids);
    RenameMoney(Money4(q.subtotal, q.totalDiscount, q.totalVat, q.totalTtc), ids);
    RenameStatus(QuoteTag(q.status), Null, q.decisionNote, q.convertedInvoiceId, ids);
    RenameFour(EncodeHead(QuoteHead(id, q)), EncodeContent(QuoteContent(q)),
               EncodeMoney(Money4(q.subtotal, q.totalDiscount, q.totalVat, q.totalTtc)),
               Node(Dict, [Tag(QuoteTag(q.status)), OptText(q.decisionNote), OptText(q.convertedInvoiceId)]), ids);
  }

  lemma {:induction false} RenameThree(a: int, b: int, c: int, ids: map<string, string>)
    ensures Rename(Node(Dict, [Int(a), Int(b), Int(c)]), ids) == Node(Dict, [Int(a), Int(b), Int(c)])
  {
    assert RenameAll([Int(a), Int(b), Int(c)], ids) == [Int(a), Int(b), Int(c)];
  }

  lemma {:induction false} RenameNoteBody(n: CreditNote, ids: map<string, string>)
    requires Canonical(n.invoiceId) && forall l :: l in n.lines ==> CanonicalOpt(l.productId)
    ensures Rename(Node(Dict, [Str(n.invoiceId), Str(n.reason), Tag(CurrencyTag(n.currency)), Node(List, EncodeNoteLines(n.lines))]), ids)
         == Node(Dict, [Str(Renamed(n.invoiceId, ids)), Str(RenameText(n.reason, ids)), Tag(CurrencyTag(n.currency)),
                        Node(List, EncodeNoteLines(RenamedNoteLines(n.lines, ids)))])
    ensures Rename(Node(Dict, [Int(n.subtotal), Int(n.totalVat), Int(n.totalTtc)]), ids)
         == Node(Dict, [Int(n.subtotal), Int(n.totalVat), Int(n.totalTtc)])
  {
    RenameId(n.invoiceId, ids);
    RenameStr(n.reason, ids);
    RenameNoteLines(n.lines, ids);
    RenameThree(n.subtotal, n.totalVat, n.totalTtc, ids);
    hide RenameAll, FiledUnder, Canonical, CanonicalOpt, EncodeNoteLines, RenamedNoteLines, RenameText, Renamed, CurrencyTag, RenamedText;
    RenameFour(Str(n.invoiceId), Str(n.reason), Tag(CurrencyTag(n.currency)), Node(List, EncodeNoteLines(n.lines)), ids);
  }

  lemma {:induction false} RenameNote(id: Id, n: CreditNote, ids: map<string, string>)
    requires CanonicalRow(NoteRow(id, n))
    ensures RenameAll(EncodeNote(id, n), ids) == EncodeNote(Renamed(id, ids), RenamedNote(n, ids))
  {
    hide RenameAll, Canonical, CanonicalOpt, EncodeHead, RenamedNoteLines, EncodeNoteLines, RenameText, Renamed, CurrencyTag, Rename;
    RenameHead(Head(id, n.companyId, n.clientId, Some(n.reference), Some(n.sequence), n.issueDate, None), ids);
    RenameNoteBody(n, ids);
  }

  lemma {:induction false} RenameCompany(id: Id, c: Company, ids: map<string, string>)
    requires CanonicalRow(CompanyRow(id, c))
    ensures RenameAll(EncodeCompany(id, c), ids) == EncodeCompany(Renamed(id, ids), RenamedCompany(c, ids))
  {
    RenameId(id, ids);
    RenameStr(c.name, ids);
    RenameStr(c.prefix, ids);
    RenameStr(c.countryCode, ids);
    RenameStr(c.defaultTemplate, ids);
    RenameSix(Str(id), Str(c.name), Str(c.prefix), Str(c.countryCode), Tag(CurrencyTag(c.defaultCurrency)), Str(c.defaultTemplate), ids);
    hide RenameAll, FiledUnder, Canonical, RenameText, Renamed, CurrencyTag;
  }

  lemma {:induction false} RenameClient(id: Id, c: Client, ids: map<string, string>)
    requires CanonicalRow(ClientRow(id, c))
    ensures RenameAll(EncodeClient(id, c), ids) == EncodeClient(Renamed(id, ids), RenamedClient(c, ids))
  {
    RenameId(id, ids);
    RenameId(c.companyId, ids);
    RenameStr(c.name, ids);
    RenameStr(c.countryCode, ids);
    RenameOptText(c.vatNumber, ids);
    RenameSix(Str(id), Str(c.companyId), Str(c.name), Str(c.countryCode), Bool(c.isBusiness), OptText(c.vatNumber), ids);
    hide RenameAll, FiledUnder, Canonical, RenameText, RenamedText, Renamed, OptText;
  }

  lemma {:induction false} RenamePayment(p: Payment, ids: map<string, string>)
    requires CanonicalRow(PaymentRow(p))
    ensures RenameAll(EncodePayment(p), ids) == EncodePayment(RenamedPayment(p, ids))
  {
    RenameId(p.invoiceId, ids);
    RenameOptText(p.reference, ids);
    hide RenameAll, FiledUnder, Canonical, RenameText, RenamedText, Renamed, OptText, CurrencyTag;
  }

  /** The walk over a dumped row gives the dump of the renamed row: identifiers change consistently, texts
      shaped like one are taken for one, and nothing else changes. */
  lemma {:induction false} RenameRow(row: Row, ids: map<string, string>)
    requires CanonicalRow(row)
    ensures Rename(Encode(row), ids) == Encode(RenamedRow(row, ids))
  {
    hide RenameAll, CanonicalRow, EncodeCompany, EncodeClient, EncodeInvoice, EncodeQuote, EncodeNote, EncodePayment,
         RenamedCompany, RenamedInvoice, RenamedQuote, RenamedNote, RenamedClient, RenamedPayment, Renamed;
    match row
    case CompanyRow(id, c) => RenameCompany(id, c, ids);
    case ClientRow(id, c) => RenameClient(id, c, ids);
    case InvoiceRow(id, i) => RenameInvoice(id, i, ids);
    case QuoteRow(id, q) => RenameQuote(id, q, ids);
    case NoteRow(id, n) => RenameNote(id, n, ids);
    case PaymentRow(p) => RenamePayment(p, ids);
  }
}
