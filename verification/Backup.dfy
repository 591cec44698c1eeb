// core/services/backup_service.py:143-261: the whole-organization backup and its restore.
module Backup {
  import opened Common
  import opened Grouping
  import opened Calendar
  import opened Money
  import opened Lines
  import opened CurrencyMath
  import opened Store
  import opened Transactions
  import opened LedgerInvariant
  import opened Numbering
  import opened Compliance
  import opened LedgerHistory
  import opened LedgerKeys
  import opened BackupIds
  import opened BackupCodec
  import opened LedgerCopy

  // ------------------------------------------------------------------ rows in and out

  /** `repository.add`, with the constraints of the row's table. */
  function AddRow(s: Store, row: Row): Result<Store> {
    match row
    case CompanyRow(id, c) =>
      if id in s.companies then Err(IntegrityError)
      else Ok(s.(companies := s.companies[id := c], usedIds := s.usedIds + {id}))
    case ClientRow(id, c) =>
      if id in s.clients || c.companyId !in s.companies then Err(IntegrityError)
      else Ok(s.(clients := s.clients[id := c], usedIds := s.usedIds + {id}))
    case InvoiceRow(id, i) =>
      if id in s.invoices || InvoiceKeyTaken(s.invoices, id, i) || i.companyId !in s.companies || i.clientId !in s.clients then Err(IntegrityError)
      else Ok(s.(invoices := s.invoices[id := i], usedIds := s.usedIds + {id}))
    case QuoteRow(id, q) =>
      if id in s.quotes || QuoteKeyTaken(s.quotes, q) || q.companyId !in s.companies || q.clientId !in s.clients then Err(IntegrityError)
      else Ok(s.(quotes := s.quotes[id := q], usedIds := s.usedIds + {id}))
    case NoteRow(id, n) =>
      if id in s.notes || NoteKeyTaken(s.notes, n) || n.companyId !in s.companies || n.clientId !in s.clients || n.invoiceId !in s.invoices
      then Err(IntegrityError)
      else Ok(s.(notes := s.notes[id := n], usedIds := s.usedIds + {id}))
    case PaymentRow(p) =>
      if p.invoiceId !in s.invoices then Err(IntegrityError)
      else Ok(s.(payments := s.payments + [p]))
  }

  function AddRows(s: Store, rows: seq<Row>): Result<Store> {
    if rows == [] then Ok(s)
    else match AddRows(s, rows[..|rows| - 1])
      case Err(e) => Err(e)
      case Ok(t) => AddRow(t, rows[|rows| - 1])
  }

  function EncodeRows(rows: seq<Row>): (r: seq<Json>)
    ensures |r| == |rows|
  {
    seq(|rows|, i requires 0 <= i < |rows| => Encode(rows[i]))
  }

  /** `_models`: every entry of a table has to validate. */
  function DecodeRows(table: Table, items: seq<Json>): Option<seq<Row>> {
    if items == [] then Some([])
    else
      var before, last := DecodeRows(table, items[..|items| - 1]), Decode(table, items[|items| - 1]);
      if before.Some? && last.Some? then Some(before.value + [last.value]) else None
  }

  predicate IsList(j: Json) {
    j.Node? && j.kind.List?
  }

  function RestoreTable(s: Store, table: Table, j: Json): Result<Store> {
    if !IsList(j) then Err(BusinessRule)
    else match DecodeRows(table, j.items)
      case None => Err(BusinessRule)
      case Some(rows) => AddRows(s, rows)
  }

  // ------------------------------------------------------------------ counters and the audit log

  datatype SequenceEntry = SequenceEntry(scope: Scope, value: nat)

  function EncodeSequence(e: SequenceEntry): Json {
    Node(Dict, [Str(e.scope.companyId), Str(e.scope.name), Int(e.value)])
  }

  function DecodeSequence(j: Json): Option<SequenceEntry> {
    if j.Node? && |j.items| == 3 && IsId(j.items[0]) && j.items[1].Str? && IsNat(j.items[2])
    then Some(SequenceEntry(Scope(j.items[0].s, j.items[1].s), j.items[2].n)) else None
  }

  /** `for raw in sequences: restore_value(...)`; an invalid entry stops the restore. */
  function RestoreCounters(counters: map<Scope, nat>, items: seq<Json>): Result<map<Scope, nat>> {
    if items == [] then Ok(counters)
    else match RestoreCounters(counters, items[..|items| - 1])
      case Err(e) => Err(e)
      case Ok(before) =>
        match DecodeSequence(items[|items| - 1])
        case None => Err(BusinessRule)
        case Some(e) => Ok(Restored(before, e.scope, e.value))
  }

  function ActionTag(a: AuditAction): nat {
    match a
    case Create => 0 case Update => 1 case Void => 2 case Issue => 3 case Pay => 4 case Delete => 5 case ExportBackup => 6 case Restore => 7
  }

  function TagAction(t: nat): AuditAction {
    if t == 0 then Create else if t == 1 then Update else if t == 2 then Void else if t == 3 then Issue
    else if t == 4 then Pay else if t == 5 then Delete else if t == 6 then ExportBackup else Restore
  }

  function EncodeAudit(e: AuditEntry): Json {
    Node(Dict, [Tag(ActionTag(e.action)), Str(e.targetType), OptText(e.targetId)])
  }

  function DecodeAudit(j: Json): Option<AuditEntry> {
    if j.Node? && |j.items| == 3 && IsTag(j.items[0], 7) && j.items[1].Str? && IsOptId(j.items[2])
    then Some(AuditEntry(TagAction(j.items[0].t), j.items[1].s, TextOf(j.items[2]))) else None
  }

  function DecodeAudits(items: seq<Json>): (r: Option<seq<AuditEntry>>)
    ensures r.Some? ==> |r.value| == |items|
  {
    if items == [] then Some([])
    else
      var before, last := DecodeAudits(items[..|items| - 1]), DecodeAudit(items[|items| - 1]);
      if before.Some? && last.Some? then Some(before.value + [last.value]) else None
  }

  // ------------------------------------------------------------------ the payload

  const FORMAT := "billgen-backup"

  predicate Supported(version: int) {
    version == 1 || version == 2 || version == 3
  }

  /** A backup file. A collection that an older version does not have is an empty list. */
  datatype Payload = Payload(
    format: string, schemaVersion: int, organization: Json, companies: Json, clients: Json, invoices: Json, quotes: Json,
    creditNotes: Json, payments: Json, auditLog: Json, sequences: Json)

  function PayloadParts(p: Payload): seq<Json> {
    [p.organization, p.companies, p.clients, p.invoices, p.quotes, p.creditNotes, p.payments, p.auditLog, p.sequences]
  }

  function RenamedPayload(p: Payload, ids: map<string, string>): Payload {
    Payload(p.format, p.schemaVersion, Rename(p.organization, ids), Rename(p.companies, ids), Rename(p.clients, ids),
            Rename(p.invoices, ids), Rename(p.quotes, ids), Rename(p.creditNotes, ids), Rename(p.payments, ids),
            Rename(p.auditLog, ids), Rename(p.sequences, ids))
  }

  /** The transaction of `restore`, on a payload whose identifiers have been replaced. */
  function RestoreInto(s: Store, p: Payload): Result<Store> {
    if s.companies != map[] then Err(BusinessRule)
    else match RestoreTable(s, Companies, p.companies)
    case Err(e) => Err(e)
    case Ok(s1) =>
      match RestoreTable(s1, Clients, p.clients)
      case Err(e) => Err(e)
      case Ok(s2) =>
        match RestoreTable(s2, Invoices, p.invoices)
        case Err(e) => Err(e)
        case Ok(s3) =>
          match RestoreTable(s3, Quotes, p.quotes)
          case Err(e) => Err(e)
          case Ok(s4) =>
            match RestoreTable(s4, CreditNotes, p.creditNotes)
            case Err(e) => Err(e)
            case Ok(s5) =>
              match RestoreTable(s5, Payments, p.payments)
              case Err(e) => Err(e)
              case Ok(s6) => RestoreRest(s6, p)
  }

  /** Counters, then the audit log, then the entry that says a restore happened. */
  function RestoreRest(s: Store, p: Payload): Result<Store> {
    if !IsList(p.sequences) then Err(BusinessRule)
    else match RestoreCounters(s.counters, p.sequences.items)
    case Err(e) => Err(e)
    case Ok(counters) =>
      if !IsList(p.auditLog) || DecodeAudits(p.auditLog.items).None? then Err(BusinessRule)
      else Ok(s.(counters := counters,
                 audit := s.audit + DecodeAudits(p.auditLog.items).value + [AuditEntry(Restore, "backup", None)]))
  }

  // ------------------------------------------------------------------ export

  /** The order in which the repositories list their rows. */
  datatype Listing = Listing(
    companies: seq<Id>, clients: seq<Id>, invoices: seq<Id>, quotes: seq<Id>, notes: seq<Id>, scopes: seq<Scope>)

  ghost predicate ListsStore(l: Listing, s: Store) {
    && Lists(l.companies, s.companies.Keys) && Lists(l.clients, s.clients.Keys) && Lists(l.invoices, s.invoices.Keys)
    && Lists(l.quotes, s.quotes.Keys) && Lists(l.notes, s.notes.Keys) && Lists(l.scopes, s.counters.Keys)
  }

  function CompanyRows(m: map<Id, Company>, l: seq<Id>): (r: seq<Row>)
    requires forall id :: id in l ==> id in m
    ensures |r| == |l|
  {
    seq(|l|, i requires 0 <= i < |l| => CompanyRow(l[i], m[l[i]]))
  }

  function ClientRows(m: map<Id, Client>, l: seq<Id>): (r: seq<Row>)
    requires forall id :: id in l ==> id in m
    ensures |r| == |l|
  {
    seq(|l|, i requires 0 <= i < |l| => ClientRow(l[i], m[l[i]]))
  }

  function InvoiceRows(m: map<Id, Invoice>, l: seq<Id>): (r: seq<Row>)
    requires forall id :: id in l ==> id in m
    ensures |r| == |l|
  {
    seq(|l|, i requires 0 <= i < |l| => InvoiceRow(l[i], m[l[i]]))
  }

  function QuoteRows(m: map<Id, Quote>, l: seq<Id>): (r: seq<Row>)
    requires forall id :: id in l ==> id in m
    ensures |r| == |l|
  {
    seq(|l|, i requires 0 <= i < |l| => QuoteRow(l[i], m[l[i]]))
  }

  function NoteRows(m: map<Id, CreditNote>, l: seq<Id>): (r: seq<Row>)
    requires forall id :: id in l ==> id in m
    ensures |r| == |l|
  {
    seq(|l|, i requires 0 <= i < |l| => NoteRow(l[i], m[l[i]]))
  }

  /** `payments.list_for_invoice`. */
  function PaymentsOf(ps: seq<Payment>, id: Id): seq<Payment> {
    if ps == [] then []
    else PaymentsOf(ps[..|ps| - 1], id) + if ps[|ps| - 1].invoiceId == id then [ps[|ps| - 1]] else []
  }

  /** The payments, invoice by invoice. */
  function PaymentsByInvoice(ps: seq<Payment>, l: seq<Id>): seq<Payment> {
    if l == [] then [] else PaymentsByInvoice(ps, l[..|l| - 1]) + PaymentsOf(ps, l[|l| - 1])
  }

  function PaymentRows(ps: seq<Payment>): (r: seq<Row>)
    ensures |r| == |ps|
  {
    seq(|ps|, i requires 0 <= i < |ps| => PaymentRow(ps[i]))
  }

  function SequenceItems(counters: map<Scope, nat>, l: seq<Scope>): (r: seq<Json>)
    requires forall scope :: scope in l ==> scope in counters
    ensures |r| == |l|
  {
    seq(|l|, i requires 0 <= i < |l| => EncodeSequence(SequenceEntry(l[i], counters[l[i]])))
  }

  const AUDIT_EXPORT_LIMIT := 1_000_000

  /** The newest entries, in chronological order: older ones do not travel. */
  function Newest(audit: seq<AuditEntry>): seq<AuditEntry> {
    if |audit| <= AUDIT_EXPORT_LIMIT then audit else audit[|audit| - AUDIT_EXPORT_LIMIT..]
  }

  function AuditItems(audit: seq<AuditEntry>): (r: seq<Json>)
    ensures |r| == |audit|
  {
    seq(|audit|, i requires 0 <= i < |audit| => EncodeAudit(audit[i]))
  }

  function Exported(s: Store, l: Listing, organization: Json): Payload
    requires ListsStore(l, s)
  {
    Payload(FORMAT, 3, organization,
            Node(List, EncodeRows(CompanyRows(s.companies, l.companies))),
            Node(List, EncodeRows(ClientRows(s.clients, l.clients))),
            Node(List, EncodeRows(InvoiceRows(s.invoices, l.invoices))),
            Node(List, EncodeRows(QuoteRows(s.quotes, l.quotes))),
            Node(List, EncodeRows(NoteRows(s.notes, l.notes))),
            Node(List, EncodeRows(PaymentRows(PaymentsByInvoice(s.payments, l.invoices)))),
            Node(List, AuditItems(Newest(s.audit))),
            Node(List, SequenceItems(s.counters, l.scopes)))
  }

  // ------------------------------------------------------------------ what is stored

  ghost predicate CleanRows(rows: seq<Row>) {
    forall i :: 0 <= i < |rows| ==> CanonicalRow(rows[i]) && ValidRow(rows[i])
  }

  /** Identifiers are UUIDs, as the program writes them, and prefixes are short. Texts are free. */
  ghost predicate CanonicalStore(s: Store) {
    && (forall id :: id in s.companies ==> CanonicalRow(CompanyRow(id, s.companies[id])) && ValidRow(CompanyRow(id, s.companies[id])))
    && (forall id :: id in s.clients ==> CanonicalRow(ClientRow(id, s.clients[id])))
    && (forall id :: id in s.invoices ==> CanonicalRow(InvoiceRow(id, s.invoices[id])))
    && (forall id :: id in s.quotes ==> CanonicalRow(QuoteRow(id, s.quotes[id])))
    && (forall id :: id in s.notes ==> CanonicalRow(NoteRow(id, s.notes[id])))
    && (forall i :: 0 <= i < |s.audit| ==> CanonicalOpt(s.audit[i].targetId))
  }

  function RenamedRows(rows: seq<Row>, ids: map<string, string>): (r: seq<Row>)
    ensures |r| == |rows|
  {
    seq(|rows|, i requires 0 <= i < |rows| => RenamedRow(rows[i], ids))
  }

  lemma {:induction false} RowsSnoc(rows: seq<Row>, ids: map<string, string>)
    requires rows != []
    ensures RenameAll(EncodeRows(rows), ids)
         == RenameAll(EncodeRows(rows[..|rows| - 1]), ids) + [Rename(Encode(rows[|rows| - 1]), ids)]
    ensures RenamedRows(rows, ids) == RenamedRows(rows[..|rows| - 1], ids) + [RenamedRow(rows[|rows| - 1], ids)]
  {
    hide Encode, Rename, RenamedRow, RenameAll;
  }

  lemma {:induction false} DecodeSnoc(table: Table, items: seq<Json>, last: Json, rows: seq<Row>, row: Row)
    requires DecodeRows(table, items) == Some(rows) && Decode(table, last) == Some(row)
    ensures DecodeRows(table, items + [last]) == Some(rows + [row])
  {
    hide Decode;
    assert (items + [last])[..|items|] == items;
  }

  lemma {:induction false} NothingEncoded(table: Table, ids: map<string, string>)
    ensures DecodeRows(table, RenameAll(EncodeRows([]), ids)) == Some(RenamedRows([], ids))
  {
  }

  /** A table that was dumped, walked and read back is the table of renamed rows. */
  lemma {:induction false} TableRoundTrip(table: Table, rows: seq<Row>, ids: map<string, string>)
    requires CleanRows(rows) && forall i :: 0 <= i < |rows| ==> TableOf(rows[i]) == table
    requires forall i :: 0 <= i < |rows| ==> CanonicalRow(RenamedRow(rows[i], ids)) && ValidRow(RenamedRow(rows[i], ids))
    ensures DecodeRows(table, RenameAll(EncodeRows(rows), ids)) == Some(RenamedRows(rows, ids))
  {
    hide CanonicalRow, ValidRow, Encode, Decode, RenamedRow, Rename, RenameAll, EncodeRows, DecodeRows, RenamedRows, TableOf;
    if rows == [] {
      NothingEncoded(table, ids);
    } else {
      var n := |rows| - 1;
      TableRoundTrip(table, rows[..n], ids);
      RenameRow(rows[n], ids);
      SameTable(rows[n], ids);
      RowRoundTrip(RenamedRow(rows[n], ids));
      RowsSnoc(rows, ids);
      DecodeSnoc(table, RenameAll(EncodeRows(rows[..n]), ids), Rename(Encode(rows[n]), ids), RenamedRows(rows[..n], ids),
                 RenamedRow(rows[n], ids));
    }
  }

  lemma {:induction false} SameTable(row: Row, ids: map<string, string>)
    ensures TableOf(RenamedRow(row, ids)) == TableOf(row)
  {
  }

  lemma {:induction false} RenamedCanonical(id: Id, ids: map<string, string>)
    requires CanonicalValues(ids) && Canonical(id)
    ensures Canonical(Renamed(id, ids))
  {
    hide Canonical;
  }

  lemma {:induction false} RenamedOptCanonical(o: Option<Id>, ids: map<string, string>)
    requires CanonicalValues(ids) && CanonicalOpt(o)
    ensures CanonicalOpt(RenamedOpt(o, ids))
  {
    hide Canonical;
  }

  lemma {:induction false} RenamedLinesCanonical(ls: seq<InvoiceLine>, ids: map<string, string>)
    requires CanonicalValues(ids) && CanonicalLines(ls)
    ensures CanonicalLines(RenamedLines(ls, ids))
  {
    hide CanonicalOpt, RenamedOpt, RenamedDiscount, RenameText, CanonicalValues;
    forall l | l in RenamedLines(ls, ids) ensures CanonicalOpt(l.productId) {
      var i :| 0 <= i < |ls| && RenamedLines(ls, ids)[i] == l;
      assert ls[i] in ls;
      RenamedOptCanonical(ls[i].productId, ids);
    }
  }

  lemma {:induction false} RenamedNoteLinesClean(ls: seq<CreditNoteLine>, ids: map<string, string>)
    requires CanonicalValues(ids) && forall l :: l in ls ==> CanonicalOpt(l.productId) && ValidNoteLine(l)
    ensures forall l :: l in RenamedNoteLines(ls, ids) ==> CanonicalOpt(l.productId) && ValidNoteLine(l)
  {
    hide CanonicalOpt, RenamedOpt, ValidNoteLine, RenameText, CanonicalValues;
    forall l | l in RenamedNoteLines(ls, ids) ensures CanonicalOpt(l.productId) && ValidNoteLine(l) {
      var i :| 0 <= i < |ls| && RenamedNoteLines(ls, ids)[i] == l;
      assert ls[i] in ls;
      RenamedOptCanonical(ls[i].productId, ids);
      SameValidity(ls[i], ids);
    }
  }

  lemma {:induction false} SameValidity(l: CreditNoteLine, ids: map<string, string>)
    requires CanonicalValues(ids) && ValidNoteLine(l)
    ensures ValidNoteLine(RenamedNoteLine(l, ids))
  {
    RenamedNonEmpty(l.description, ids);
    hide RenameText, RenamedOpt, CanonicalValues;
  }

  /** What is too short to be an identifier stays. */
  lemma {:induction false} ShortText(s: string, ids: map<string, string>)
    requires |s| < 36
    ensures RenameText(s, ids) == s
  {
  }

  /** Under canonical identifiers a canonical, valid row stays canonical and valid. */
  lemma {:induction false} RenamedRowClean(row: Row, ids: map<string, string>)
    requires CanonicalValues(ids) && CanonicalRow(row) && ValidRow(row)
    ensures CanonicalRow(RenamedRow(row, ids)) && ValidRow(RenamedRow(row, ids))
  {
    hide Canonical, CanonicalOpt, CanonicalLines, Renamed, RenamedOpt, RenamedLines, RenamedNoteLines, ValidNoteLine, CanonicalValues,
         RenameText, RenamedText, RenamedDiscount, ValidDiscount;
    match row
    case CompanyRow(id, c) =>
      RenamedCanonical(id, ids);
      ShortText(c.prefix, ids);
    case ClientRow(id, c) =>
      RenamedCanonical(id, ids);
      RenamedCanonical(c.companyId, ids);
    case InvoiceRow(id, i) =>
      RenamedCanonical(id, ids);
      RenamedCanonical(i.companyId, ids);
      RenamedCanonical(i.clientId, ids);
      RenamedOptCanonical(i.voidedBy, ids);
      RenamedLinesCanonical(i.lines, ids);
      RenamedLinesSound(i.lines, ids);
      SameDiscount(0.0, i.discount, ids);
    case QuoteRow(id, q) =>
      RenamedCanonical(id, ids);
      RenamedCanonical(q.companyId, ids);
      RenamedCanonical(q.clientId, ids);
      RenamedOptCanonical(q.convertedInvoiceId, ids);
      RenamedLinesCanonical(q.lines, ids);
      RenamedLinesSound(q.lines, ids);
      SameDiscount(0.0, q.discount, ids);
    case NoteRow(id, n) =>
      RenamedCanonical(id, ids);
      RenamedCanonical(n.companyId, ids);
      RenamedCanonical(n.clientId, ids);
      RenamedCanonical(n.invoiceId, ids);
      RenamedNoteLinesClean(n.lines, ids);
    case PaymentRow(p) => RenamedCanonical(p.invoiceId, ids);
  }

  // ------------------------------------------------------------------ adding renamed rows

  /** A table filled in the order of a listing, under new identifiers. */
  function Named<V>(l: seq<Id>, vals: map<Id, V>, ids: map<string, string>): map<Id, V>
    requires forall id :: id in l ==> id in vals
  {
    if l == [] then map[] else Named(l[..|l| - 1], vals, ids)[Renamed(l[|l| - 1], ids) := vals[l[|l| - 1]]]
  }

  lemma {:induction false} NamedFacts<V>(l: seq<Id>, vals: map<Id, V>, ids: map<string, string>)
    requires Distinct(l) && Injective(ids) && forall id :: id in l ==> id in vals && id in ids
    ensures forall y :: y in Named(l, vals, ids) <==> exists id :: id in l && Renamed(id, ids) == y
    ensures forall id :: id in l ==> Named(l, vals, ids)[Renamed(id, ids)] == vals[id]
    ensures forall id :: id in ids && id !in l ==> Renamed(id, ids) !in Named(l, vals, ids)
  {
    if l != [] {
      var n := |l| - 1;
      NamedFacts(l[..n], vals, ids);
      assert l == l[..n] + [l[n]];
      assert l[n] in l;
      hide Injective;
      forall id | id in ids && Renamed(id, ids) == Renamed(l[n], ids) ensures id == l[n] {
        RenamedApart(ids, id, l[n]);
      }
    }
  }

  function IdsNamed(l: seq<Id>, ids: map<string, string>): set<Id> {
    if l == [] then {} else IdsNamed(l[..|l| - 1], ids) + {Renamed(l[|l| - 1], ids)}
  }

  lemma {:induction false} IdsNamedFacts(l: seq<Id>, ids: map<string, string>)
    ensures forall id :: id in l ==> Renamed(id, ids) in IdsNamed(l, ids)
  {
    if l != [] {
      IdsNamedFacts(l[..|l| - 1], ids);
      assert l == l[..|l| - 1] + [l[|l| - 1]];
    }
  }

  lemma {:induction false} UsedMore(used: set<Id>, l: seq<Id>, ids: map<string, string>)
    ensures l == [] ==> used + IdsNamed(l, ids) == used
    ensures l != [] ==> used + IdsNamed(l, ids) == used + IdsNamed(l[..|l| - 1], ids) + {Renamed(l[|l| - 1], ids)}
  {
  }

  lemma {:induction false} DistinctPrefix(l: seq<Id>)
    requires Distinct(l) && l != []
    ensures Distinct(l[..|l| - 1]) && l[|l| - 1] in l && l[|l| - 1] !in l[..|l| - 1]
  {
  }

  function CompaniesUnder(m: map<Id, Company>, ids: map<string, string>): map<Id, Company> {
    map id | id in m :: RenamedCompany(m[id], ids)
  }

  lemma {:induction false} AddCompanies(t: Store, l: seq<Id>, m: map<Id, Company>, ids: map<string, string>)
    requires t.companies == map[] && Distinct(l) && Injective(ids) && forall id :: id in l ==> id in m && id in ids
    ensures AddRows(t, RenamedRows(CompanyRows(m, l), ids))
         == Ok(t.(companies := Named(l, CompaniesUnder(m, ids), ids), usedIds := t.usedIds + IdsNamed(l, ids)))
  {
    var rows := RenamedRows(CompanyRows(m, l), ids);
    hide RenamedCompany;
    UsedMore(t.usedIds, l, ids);
    if l != [] {
      var n := |l| - 1;
      AddCompanies(t, l[..n], m, ids);
      NamedFacts(l[..n], CompaniesUnder(m, ids), ids);
      assert l[n] in l && l[n] !in l[..n];
      assert rows[..n] == RenamedRows(CompanyRows(m, l[..n]), ids);
      hide Renamed, Injective, IdsNamed;
    }
  }

  function ClientsUnder(m: map<Id, Client>, ids: map<string, string>): map<Id, Client> {
    map id | id in m :: RenamedClient(m[id], ids)
  }

  function InvoicesUnder(m: map<Id, Invoice>, ids: map<string, string>): map<Id, Invoice> {
    map id | id in m :: RenamedInvoice(m[id], ids)
  }

  function QuotesUnder(m: map<Id, Quote>, ids: map<string, string>): map<Id, Quote> {
    map id | id in m :: RenamedQuote(m[id], ids)
  }

  function NotesUnder(m: map<Id, CreditNote>, ids: map<string, string>): map<Id, CreditNote> {
    map id | id in m :: RenamedNote(m[id], ids)
  }

  lemma {:induction false} AddClients(t: Store, l: seq<Id>, m: map<Id, Client>, ids: map<string, string>)
    requires t.clients == map[] && Distinct(l) && Injective(ids) && forall id :: id in l ==> id in m && id in ids
    requires forall id :: id in l ==> Renamed(m[id].companyId, ids) in t.companies
    ensures AddRows(t, RenamedRows(ClientRows(m, l), ids))
         == Ok(t.(clients := Named(l, ClientsUnder(m, ids), ids), usedIds := t.usedIds + IdsNamed(l, ids)))
  {
    var rows := RenamedRows(ClientRows(m, l), ids);
    hide RenameText, RenamedText;
    UsedMore(t.usedIds, l, ids);
    if l != [] {
      var n := |l| - 1;
      AddClients(t, l[..n], m, ids);
      NamedFacts(l[..n], ClientsUnder(m, ids), ids);
      assert l[n] in l && l[n] !in l[..n];
      assert rows[..n] == RenamedRows(ClientRows(m, l[..n]), ids);
      hide Renamed, Injective, IdsNamed;
    }
  }

  /** No two invoices of a company share a number, or a reference under the renaming. */
  ghost predicate InvoiceKeysApart(m: map<Id, Invoice>, ids: map<string, string>) {
    && InvoiceReferencesApart(m, ids)
    && forall a, b :: a in m && b in m && a != b && m[a].companyId == m[b].companyId && m[a].sequence.Some? ==>
         m[a].sequence != m[b].sequence
  }

  lemma {:induction false} InvoiceKeyFree(l: seq<Id>, m: map<Id, Invoice>, ids: map<string, string>, id: Id)
    requires Distinct(l) && Injective(ids) && forall x :: x in l ==> x in m && x in ids && m[x].companyId in ids
    requires id in m && id in ids && id !in l && m[id].companyId in ids && InvoiceKeysApart(m, ids)
    ensures !InvoiceKeyTaken(Named(l, InvoicesUnder(m, ids), ids), Renamed(id, ids), RenamedInvoice(m[id], ids))
  {
    var vals := InvoicesUnder(m, ids);
    var named := Named(l, vals, ids);
    NamedFacts(l, vals, ids);
    hide Named, RenamedLines, RenamedOpt, RenamedDiscount, RenameText;
    forall y | y in named && named[y].companyId == Renamed(m[id].companyId, ids)
      ensures !(m[id].reference.Some? && named[y].reference == RenamedText(m[id].reference, ids))
      ensures !(m[id].sequence.Some? && named[y].sequence == m[id].sequence)
    {
      var x :| x in l && Renamed(x, ids) == y;
      assert named[y] == RenamedInvoice(m[x], ids);
      RenamedApart(ids, m[x].companyId, m[id].companyId);
    }
    hide Renamed;
  }

  lemma {:induction false} AddOneInvoiceRow(t: Store, id: Id, i: Invoice, ids: map<string, string>)
    requires Renamed(id, ids) !in t.invoices && !InvoiceKeyTaken(t.invoices, Renamed(id, ids), RenamedInvoice(i, ids))
    requires Renamed(i.companyId, ids) in t.companies && Renamed(i.clientId, ids) in t.clients
    ensures AddRow(t, RenamedRow(InvoiceRow(id, i), ids))
         == Ok(t.(invoices := t.invoices[Renamed(id, ids) := RenamedInvoice(i, ids)], usedIds := t.usedIds + {Renamed(id, ids)}))
  {
    hide Renamed, InvoiceKeyTaken, RenamedLines, RenamedOpt, RenamedDiscount, RenamedText, RenameText;
  }

  lemma {:induction false} AddInvoices(t: Store, l: seq<Id>, m: map<Id, Invoice>, ids: map<string, string>)
    requires t.invoices == map[] && Distinct(l) && Injective(ids) && InvoiceKeysApart(m, ids)
    requires forall id :: id in l ==> id in m && id in ids && m[id].companyId in ids
    requires forall id :: id in l ==> Renamed(m[id].companyId, ids) in t.companies && Renamed(m[id].clientId, ids) in t.clients
    ensures AddRows(t, RenamedRows(InvoiceRows(m, l), ids))
         == Ok(t.(invoices := Named(l, InvoicesUnder(m, ids), ids), usedIds := t.usedIds + IdsNamed(l, ids)))
  {
    hide AddRow, InvoiceKeysApart, Distinct, Injective, RenamedRow, RenamedInvoice;
    var rows := RenamedRows(InvoiceRows(m, l), ids);
    UsedMore(t.usedIds, l, ids);
    if l != [] {
      var n := |l| - 1;
      DistinctPrefix(l);
      AddInvoices(t, l[..n], m, ids);
      NamedFacts(l[..n], InvoicesUnder(m, ids), ids);
      InvoiceKeyFree(l[..n], m, ids, l[n]);
      assert rows[..n] == RenamedRows(InvoiceRows(m, l[..n]), ids);
      var before := t.(invoices := Named(l[..n], InvoicesUnder(m, ids), ids), usedIds := t.usedIds + IdsNamed(l[..n], ids));
      AddOneInvoiceRow(before, l[n], m[l[n]], ids);
      hide Renamed, IdsNamed;
    }
  }

  ghost predicate QuoteKeysApart(m: map<Id, Quote>, ids: map<string, string>) {
    && QuoteReferencesApart(m, ids)
    && forall a, b :: a in m && b in m && a != b && m[a].companyId == m[b].companyId ==> m[a].sequence != m[b].sequence
  }

  lemma {:induction false} QuoteKeyFree(l: seq<Id>, m: map<Id, Quote>, ids: map<string, string>, id: Id)
    requires Distinct(l) && Injective(ids) && forall x :: x in l ==> x in m && x in ids && m[x].companyId in ids
    requires id in m && id in ids && id !in l && m[id].companyId in ids && QuoteKeysApart(m, ids)
    ensures !QuoteKeyTaken(Named(l, QuotesUnder(m, ids), ids), RenamedQuote(m[id], ids))
  {
    var vals := QuotesUnder(m, ids);
    var named := Named(l, vals, ids);
    NamedFacts(l, vals, ids);
    hide Named, RenamedLines, RenamedOpt, RenamedDiscount, RenamedText, RenameText;
    forall y | y in named && named[y].companyId == Renamed(m[id].companyId, ids)
      ensures named[y].reference != RenameText(m[id].reference, ids) && named[y].sequence != m[id].sequence
    {
      var x :| x in l && Renamed(x, ids) == y;
      assert named[y] == RenamedQuote(m[x], ids);
      RenamedApart(ids, m[x].companyId, m[id].companyId);
    }
    hide Renamed;
  }

  lemma {:induction false} AddOneQuoteRow(t: Store, id: Id, q: Quote, ids: map<string, string>)
    requires Renamed(id, ids) !in t.quotes && !QuoteKeyTaken(t.quotes, RenamedQuote(q, ids))
    requires Renamed(q.companyId, ids) in t.companies && Renamed(q.clientId, ids) in t.clients
    ensures AddRow(t, RenamedRow(QuoteRow(id, q), ids))
         == Ok(t.(quotes := t.quotes[Renamed(id, ids) := RenamedQuote(q, ids)], usedIds := t.usedIds + {Renamed(id, ids)}))
  {
    hide Renamed, QuoteKeyTaken, RenamedLines, RenamedOpt, RenamedDiscount, RenamedText, RenameText;
  }

  lemma {:induction false} AddQuotes(t: Store, l: seq<Id>, m: map<Id, Quote>, ids: map<string, string>)
    requires t.quotes == map[] && Distinct(l) && Injective(ids) && QuoteKeysApart(m, ids)
    requires forall id :: id in l ==> id in m && id in ids && m[id].companyId in ids
    requires forall id :: id in l ==> Renamed(m[id].companyId, ids) in t.companies && Renamed(m[id].clientId, ids) in t.clients
    ensures AddRows(t, RenamedRows(QuoteRows(m, l), ids))
         == Ok(t.(quotes := Named(l, QuotesUnder(m, ids), ids), usedIds := t.usedIds + IdsNamed(l, ids)))
  {
    hide AddRow, QuoteKeysApart, NoteKeysApart, Distinct, Injective, RenamedRow, RenamedQuote, RenamedNote;
    var rows := RenamedRows(QuoteRows(m, l), ids);
    UsedMore(t.usedIds, l, ids);
    if l != [] {
      var n := |l| - 1;
      DistinctPrefix(l);
      AddQuotes(t, l[..n], m, ids);
      NamedFacts(l[..n], QuotesUnder(m, ids), ids);
      QuoteKeyFree(l[..n], m, ids, l[n]);
      assert rows[..n] == RenamedRows(QuoteRows(m, l[..n]), ids);
      var before := t.(quotes := Named(l[..n], QuotesUnder(m, ids), ids), usedIds := t.usedIds + IdsNamed(l[..n], ids));
      AddOneQuoteRow(before, l[n], m[l[n]], ids);
      hide Renamed, IdsNamed;
    }
  }

  ghost predicate NoteKeysApart(m: map<Id, CreditNote>, ids: map<string, string>) {
    && NoteReferencesApart(m, ids)
    && forall a, b :: a in m && b in m && a != b && m[a].companyId == m[b].companyId ==> m[a].sequence != m[b].sequence
  }

  lemma {:induction false} NoteKeyFree(l: seq<Id>, m: map<Id, CreditNote>, ids: map<string, string>, id: Id)
    requires Distinct(l) && Injective(ids) && forall x :: x in l ==> x in m && x in ids && m[x].companyId in ids
    requires id in m && id in ids && id !in l && m[id].companyId in ids && NoteKeysApart(m, ids)
    ensures !NoteKeyTaken(Named(l, NotesUnder(m, ids), ids), RenamedNote(m[id], ids))
  {
    var vals := NotesUnder(m, ids);
    var named := Named(l, vals, ids);
    NamedFacts(l, vals, ids);
    hide Named, RenamedNoteLines, RenameText;
    forall y | y in named && named[y].companyId == Renamed(m[id].companyId, ids)
      ensures named[y].reference != RenameText(m[id].reference, ids) && named[y].sequence != m[id].sequence
    {
      var x :| x in l && Renamed(x, ids) == y;
      assert named[y] == RenamedNote(m[x], ids);
      RenamedApart(ids, m[x].companyId, m[id].companyId);
    }
    hide Renamed;
  }

  lemma {:induction false} AddOneNoteRow(t: Store, id: Id, q: CreditNote, ids: map<string, string>)
    requires Renamed(id, ids) !in t.notes && !NoteKeyTaken(t.notes, RenamedNote(q, ids))
    requires Renamed(q.companyId, ids) in t.companies && Renamed(q.clientId, ids) in t.clients && Renamed(q.invoiceId, ids) in t.invoices
    ensures AddRow(t, RenamedRow(NoteRow(id, q), ids))
         == Ok(t.(notes := t.notes[Renamed(id, ids) := RenamedNote(q, ids)], usedIds := t.usedIds + {Renamed(id, ids)}))
  {
    hide Renamed, NoteKeyTaken, RenamedNoteLines, RenameText;
  }

  lemma {:induction false} AddNotes(t: Store, l: seq<Id>, m: map<Id, CreditNote>, ids: map<string, string>)
    requires t.notes == map[] && Distinct(l) && Injective(ids) && NoteKeysApart(m, ids)
    requires forall id :: id in l ==> id in m && id in ids && m[id].companyId in ids
    requires forall id :: id in l ==>
      Renamed(m[id].companyId, ids) in t.companies && Renamed(m[id].clientId, ids) in t.clients && Renamed(m[id].invoiceId, ids) in t.invoices
    ensures AddRows(t, RenamedRows(NoteRows(m, l), ids))
         == Ok(t.(notes := Named(l, NotesUnder(m, ids), ids), usedIds := t.usedIds + IdsNamed(l, ids)))
  {
    hide AddRow, QuoteKeysApart, NoteKeysApart, Distinct, Injective, RenamedRow, RenamedQuote, RenamedNote;
    var rows := RenamedRows(NoteRows(m, l), ids);
    UsedMore(t.usedIds, l, ids);
    if l != [] {
      var n := |l| - 1;
      DistinctPrefix(l);
      AddNotes(t, l[..n], m, ids);
      NamedFacts(l[..n], NotesUnder(m, ids), ids);
      NoteKeyFree(l[..n], m, ids, l[n]);
      assert rows[..n] == RenamedRows(NoteRows(m, l[..n]), ids);
      var before := t.(notes := Named(l[..n], NotesUnder(m, ids), ids), usedIds := t.usedIds + IdsNamed(l[..n], ids));
      AddOneNoteRow(before, l[n], m[l[n]], ids);
      hide Renamed, IdsNamed;
    }
  }

  lemma {:induction false} AddOnePayment(t: Store, p: Payment, ids: map<string, string>)
    requires Renamed(p.invoiceId, ids) in t.invoices
    ensures AddRow(t, RenamedRow(PaymentRow(p), ids)) == Ok(t.(payments := t.payments + [RenamedPayment(p, ids)]))
  {
    hide Renamed, RenamedText;
  }

  lemma {:induction false} AddRowsSnoc(t: Store, rows: seq<Row>, last: Row, u: Store)
    requires AddRows(t, rows) == Ok(u)
    ensures AddRows(t, rows + [last]) == AddRow(u, last)
  {
    hide AddRow;
    assert (rows + [last])[..|rows|] == rows;
  }

  lemma {:induction false} PaymentsSnoc(ps: seq<Payment>, ids: map<string, string>)
    requires ps != []
    ensures RenamedRows(PaymentRows(ps), ids)
         == RenamedRows(PaymentRows(ps[..|ps| - 1]), ids) + [RenamedRow(PaymentRow(ps[|ps| - 1]), ids)]
    ensures RenamedPayments(ps, ids) == RenamedPayments(ps[..|ps| - 1], ids) + [RenamedPayment(ps[|ps| - 1], ids)]
  {
    hide RenamedRow, RenamedPayment;
  }

  lemma {:induction false} NoPayments(t: Store, ids: map<string, string>)
    ensures AddRows(t, RenamedRows(PaymentRows([]), ids)) == Ok(t.(payments := t.payments + RenamedPayments([], ids)))
  {
    assert t.payments + RenamedPayments([], ids) == t.payments;
  }

  lemma {:induction false} AddPayments(t: Store, ps: seq<Payment>, ids: map<string, string>)
    requires forall p :: p in ps ==> Renamed(p.invoiceId, ids) in t.invoices
    ensures AddRows(t, RenamedRows(PaymentRows(ps), ids)) == Ok(t.(payments := t.payments + RenamedPayments(ps, ids)))
  {
    hide *;
    if ps == [] {
      NoPayments(t, ids);
    } else {
      var n := |ps| - 1;
      AddPayments(t, ps[..n], ids);
      assert ps[n] in ps;
      PaymentsSnoc(ps, ids);
      var u := t.(payments := t.payments + RenamedPayments(ps[..n], ids));
      AddOnePayment(u, ps[n], ids);
      AddRowsSnoc(t, RenamedRows(PaymentRows(ps[..n]), ids), RenamedRow(PaymentRow(ps[n]), ids), u);
      assert u.payments + [RenamedPayment(ps[n], ids)] == t.payments + RenamedPayments(ps, ids);
    }
  }

  // ------------------------------------------------------------------ counters and audit entries

  lemma {:induction false} SequenceRenamed(e: SequenceEntry, ids: map<string, string>)
    requires Canonical(e.scope.companyId) && CanonicalValues(ids)
    ensures DecodeSequence(Rename(EncodeSequence(e), ids)) == Some(SequenceEntry(RenamedScope(e.scope, ids), e.value))
  {
    RenameId(e.scope.companyId, ids);
    RenamedCanonical(e.scope.companyId, ids);
    hide Canonical, RenameText, Renamed;
    assert Rename(Int(e.value), ids) == Int(e.value);
    RenameStr(e.scope.name, ids);
    hide Rename;
    assert RenameAll(EncodeSequence(e).items, ids)
        == [Str(Renamed(e.scope.companyId, ids)), Str(RenameText(e.scope.name, ids)), Int(e.value)];
    NodeRenamed(EncodeSequence(e).items, ids);
  }

  lemma {:induction false} NodeRenamed(items: seq<Json>, ids: map<string, string>)
    ensures Rename(Node(Dict, items), ids) == Node(Dict, RenameAll(items, ids))
  {
  }

  /** What the restored counters are so far. */
  ghost predicate CountersNamed(l: seq<Scope>, m: map<Scope, nat>, counters: map<Scope, nat>, ids: map<string, string>) {
    && (forall y :: y in counters ==> exists scope :: scope in l && RenamedScope(scope, ids) == y)
    && (forall scope :: scope in l ==> scope in m && RenamedScope(scope, ids) in counters && counters[RenamedScope(scope, ids)] == m[scope])
  }

  lemma {:induction false} NoCounters(m: map<Scope, nat>, ids: map<string, string>)
    ensures CountersNamed([], m, map[], ids)
  {
  }

  lemma {:induction false} NotYetRestored(s: Store, l: seq<Scope>, before: map<Scope, nat>, ids: map<string, string>)
    requires Covers(ids, s) && l != [] && l[|l| - 1] !in l[..|l| - 1]
    requires forall scope :: scope in l ==> scope in s.counters && KnownScope(s.companies, s.clients, scope)
    requires CountersNamed(l[..|l| - 1], s.counters, before, ids)
    ensures RenamedScope(l[|l| - 1], ids) !in before
  {
    hide KnownScope, RenamedScope, Covers;
    var n := |l| - 1;
    assert l == l[..n] + [l[n]] && l[n] in l;
    forall x | x in l[..n] ensures RenamedScope(x, ids) != RenamedScope(l[n], ids) {
      if RenamedScope(x, ids) == RenamedScope(l[n], ids) {
        ScopesApart(s, ids, x, l[n]);
      }
    }
  }

  lemma {:induction false} RestoreSnoc(items: seq<Json>, last: Json, before: map<Scope, nat>, e: SequenceEntry)
    requires RestoreCounters(map[], items) == Ok(before) && DecodeSequence(last) == Some(e)
    ensures RestoreCounters(map[], items + [last]) == Ok(Restored(before, e.scope, e.value))
  {
    hide DecodeSequence, Restored;
    assert (items + [last])[..|items|] == items;
  }

  lemma {:induction false} SequenceItemsSnoc(m: map<Scope, nat>, l: seq<Scope>, ids: map<string, string>)
    requires l != [] && forall scope :: scope in l ==> scope in m
    ensures RenameAll(SequenceItems(m, l), ids)
            == RenameAll(SequenceItems(m, l[..|l| - 1]), ids)
             + [Rename(EncodeSequence(SequenceEntry(l[|l| - 1], m[l[|l| - 1]])), ids)]
  {
    hide EncodeSequence, Rename, RenameAll;
  }

  lemma {:induction false} CountersRestored(s: Store, l: seq<Scope>, ids: map<string, string>)
    requires Covers(ids, s) && Distinct(l)
    requires forall scope :: scope in l ==> scope in s.counters && KnownScope(s.companies, s.clients, scope)
    ensures var r := RestoreCounters(map[], RenameAll(SequenceItems(s.counters, l), ids));
            r.Ok? && CountersNamed(l, s.counters, r.value, ids)
  {
    hide KnownScope, RenamedScope, EncodeSequence, DecodeSequence, Covers, CountersNamed, Canonical, CanonicalValues, Restored, RenameAll,
         Rename, SequenceItems, RestoreCounters;
    if l == [] {
      NoCounters(s.counters, ids);
      NothingRestored(s.counters, ids);
    } else {
      var n := |l| - 1;
      assert l == l[..n] + [l[n]] && l[n] in l && l[n] !in l[..n];
      CountersRestored(s, l[..n], ids);
      var items := RenameAll(SequenceItems(s.counters, l[..n]), ids);
      var before := RestoreCounters(map[], items).value;
      SequenceItemsSnoc(s.counters, l, ids);
      ScopeCanonical(s, ids, l[n]);
      SequenceRenamed(SequenceEntry(l[n], s.counters[l[n]]), ids);
      RestoreSnoc(items, Rename(EncodeSequence(SequenceEntry(l[n], s.counters[l[n]])), ids), before,
                  SequenceEntry(RenamedScope(l[n], ids), s.counters[l[n]]));
      NotYetRestored(s, l, before, ids);
      NextCounter(l, s.counters, before, ids);
    }
  }

  lemma {:induction false} NothingRestored(m: map<Scope, nat>, ids: map<string, string>)
    ensures RestoreCounters(map[], RenameAll(SequenceItems(m, []), ids)) == Ok(map[])
  {
  }

  lemma {:induction false} ScopeCanonical(s: Store, ids: map<string, string>, scope: Scope)
    requires Covers(ids, s) && KnownScope(s.companies, s.clients, scope)
    ensures Canonical(scope.companyId) && CanonicalValues(ids)
  {
    hide Canonical;
    assert scope.companyId in s.companies.Keys;
  }

  lemma {:induction false} NextCounter(l: seq<Scope>, m: map<Scope, nat>, before: map<Scope, nat>, ids: map<string, string>)
    requires l != [] && l[|l| - 1] in m && l[|l| - 1] !in l[..|l| - 1]
    requires CountersNamed(l[..|l| - 1], m, before, ids) && RenamedScope(l[|l| - 1], ids) !in before
    ensures CountersNamed(l, m, Restored(before, RenamedScope(l[|l| - 1], ids), m[l[|l| - 1]]), ids)
  {
    hide RenamedScope;
    var n := |l| - 1;
    assert l == l[..n] + [l[n]];
  }

  function RenamedAudit(e: AuditEntry, ids: map<string, string>): AuditEntry {
    e.(targetType := RenameText(e.targetType, ids), targetId := RenamedOpt(e.targetId, ids))
  }

  function RenamedAudits(es: seq<AuditEntry>, ids: map<string, string>): (r: seq<AuditEntry>)
    ensures |r| == |es|
  {
    seq(|es|, i requires 0 <= i < |es| => RenamedAudit(es[i], ids))
  }

  lemma {:induction false} AuditRenamed(e: AuditEntry, ids: map<string, string>)
    requires CanonicalValues(ids) && CanonicalOpt(e.targetId)
    ensures DecodeAudit(Rename(EncodeAudit(e), ids)) == Some(RenamedAudit(e, ids))
  {
    RenameStr(e.targetType, ids);
    RenameOptText(e.targetId, ids);
    RenamedOptCanonical(e.targetId, ids);
    hide FiledUnder, Canonical, RenameText, RenamedText, Renamed;
    assert RenameAll(EncodeAudit(e).items, ids) == EncodeAudit(RenamedAudit(e, ids)).items;
  }

  lemma {:induction false} AuditsRestored(es: seq<AuditEntry>, ids: map<string, string>)
    requires CanonicalValues(ids) && forall i :: 0 <= i < |es| ==> CanonicalOpt(es[i].targetId)
    ensures DecodeAudits(RenameAll(AuditItems(es), ids)) == Some(RenamedAudits(es, ids))
  {
    hide CanonicalOpt, EncodeAudit, DecodeAudit, RenamedAudit, Rename, CanonicalValues, RenameAll;
    var items := RenameAll(AuditItems(es), ids);
    if es == [] {
      assert RenamedAudits(es, ids) == [];
    } else {
      var n := |es| - 1;
      AuditsRestored(es[..n], ids);
      assert items[..n] == RenameAll(AuditItems(es[..n]), ids);
      AuditRenamed(es[n], ids);
      assert DecodeAudit(items[n]) == Some(RenamedAudit(es[n], ids));
      assert RenamedAudits(es, ids) == RenamedAudits(es[..n], ids) + [RenamedAudit(es[n], ids)];
    }
  }

  // ------------------------------------------------------------------ payments, regrouped

  lemma {:induction false} CountSnoc(ps: seq<Payment>, last: Payment, p: Payment)
    ensures multiset(ps + [last])[p] == multiset(ps)[p] + if last == p then 1 else 0
  {
  }

  lemma {:induction false} OfSnoc(ps: seq<Payment>, id: Id)
    requires ps != []
    ensures PaymentsOf(ps, id)
         == if ps[|ps| - 1].invoiceId == id then PaymentsOf(ps[..|ps| - 1], id) + [ps[|ps| - 1]] else PaymentsOf(ps[..|ps| - 1], id)
  {
  }

  lemma {:induction false} OfNothing(id: Id)
    ensures PaymentsOf([], id) == []
  {
  }

  lemma {:induction false} CountOfOne(ps: seq<Payment>, id: Id, p: Payment)
    ensures multiset(PaymentsOf(ps, id))[p] == if p.invoiceId == id then multiset(ps)[p] else 0
  {
    hide *;
    if ps == [] {
      OfNothing(id);
    } else {
      OfSnoc(ps, id);
      var n := |ps| - 1;
      CountOfOne(ps[..n], id, p);
      assert ps == ps[..n] + [ps[n]];
      CountSnoc(ps[..n], ps[n], p);
      CountSnoc(PaymentsOf(ps[..n], id), ps[n], p);
    }
  }

  lemma {:induction false} CountGrouped(ps: seq<Payment>, l: seq<Id>, p: Payment)
    requires Distinct(l)
    ensures multiset(PaymentsByInvoice(ps, l))[p] == if p.invoiceId in l then multiset(ps)[p] else 0
  {
    hide PaymentsOf;
    if l != [] {
      var n := |l| - 1;
      CountGrouped(ps, l[..n], p);
      CountOfOne(ps, l[n], p);
      assert l == l[..n] + [l[n]] && l[n] !in l[..n];
      assert multiset(PaymentsByInvoice(ps, l)) == multiset(PaymentsByInvoice(ps, l[..n])) + multiset(PaymentsOf(ps, l[n]));
    }
  }

  /** Regrouping loses no payment and invents none. */
  lemma {:induction false} GroupedIsPermutation(ps: seq<Payment>, l: seq<Id>)
    requires Distinct(l) && forall p :: p in ps ==> p.invoiceId in l
    ensures multiset(PaymentsByInvoice(ps, l)) == multiset(ps)
  {
    forall p ensures multiset(PaymentsByInvoice(ps, l))[p] == multiset(ps)[p] {
      CountGrouped(ps, l, p);
      if p !in ps {
        assert p !in multiset(ps);
      }
    }
  }

  lemma {:induction false} PaidOnAppend(a: seq<Payment>, b: seq<Payment>, id: Id)
    ensures PaidOn(a + b, id) == PaidOn(a, id) + PaidOn(b, id)
  {
    if b == [] {
      assert a + b == a;
    } else {
      var n := |b| - 1;
      PaidOnAppend(a, b[..n], id);
      assert b == b[..n] + [b[n]];
      assert a + b == (a + b[..n]) + [b[n]];
      PaidOnSnoc(a + b[..n], b[n], id);
    }
  }

  lemma {:induction false} PaidOnOne(ps: seq<Payment>, x: Id, id: Id)
    ensures PaidOn(PaymentsOf(ps, x), id) == if x == id then PaidOn(ps, id) else 0.0
  {
    if ps != [] {
      var n := |ps| - 1;
      PaidOnOne(ps[..n], x, id);
      PaidOnAppend(PaymentsOf(ps[..n], x), if ps[n].invoiceId == x then [ps[n]] else [], id);
      PaidOnSnoc([], ps[n], id);
      assert [] + [ps[n]] == [ps[n]];
    }
  }

  lemma {:induction false} PaidOnGrouped(ps: seq<Payment>, l: seq<Id>, id: Id)
    requires Distinct(l)
    ensures PaidOn(PaymentsByInvoice(ps, l), id) == if id in l then PaidOn(ps, id) else 0.0
  {
    if l != [] {
      var n := |l| - 1;
      PaidOnGrouped(ps, l[..n], id);
      PaidOnOne(ps, l[n], id);
      PaidOnAppend(PaymentsByInvoice(ps, l[..n]), PaymentsOf(ps, l[n]), id);
      assert l == l[..n] + [l[n]] && l[n] !in l[..n];
    }
  }

  lemma {:induction false} PaidOnRenamed(ps: seq<Payment>, ids: map<string, string>, id: Id)
    requires Injective(ids) && id in ids && forall p :: p in ps ==> p.invoiceId in ids
    ensures PaidOn(RenamedPayments(ps, ids), Renamed(id, ids)) == PaidOn(ps, id)
  {
    if ps != [] {
      var n := |ps| - 1;
      PaidOnRenamed(ps[..n], ids, id);
      assert ps[n] in ps;
      assert RenamedPayments(ps, ids) == RenamedPayments(ps[..n], ids) + [RenamedPayment(ps[n], ids)];
      PaidOnSnoc(RenamedPayments(ps[..n], ids), RenamedPayment(ps[n], ids), Renamed(id, ids));
    }
  }

  /** Renaming respects permutations. */
  lemma {:induction false} RenamedPermutation(a: seq<Payment>, b: seq<Payment>, ids: map<string, string>)
    requires multiset(a) == multiset(b)
    ensures multiset(RenamedPayments(a, ids)) == multiset(RenamedPayments(b, ids))
  {
    hide RenamedPayment;
    var f := p => RenamedPayment(p, ids);
    assert RenamedPayments(a, ids) == Mapped(f, a) && RenamedPayments(b, ids) == Mapped(f, b);
    hide Mapped, RenamedPayments;
    MappedPermutation(f, a, b);
  }

  // ------------------------------------------------------------------ restore after export

  lemma {:induction false} TableRestored(t: Store, table: Table, rows: seq<Row>, ids: map<string, string>)
    requires CleanRows(rows) && CanonicalValues(ids) && forall i :: 0 <= i < |rows| ==> TableOf(rows[i]) == table
    ensures RestoreTable(t, table, Rename(Node(List, EncodeRows(rows)), ids)) == AddRows(t, RenamedRows(rows, ids))
  {
    hide CanonicalRow, ValidRow, CanonicalValues, RenamedRow, Encode, Decode, AddRows;
    forall i | 0 <= i < |rows| ensures CanonicalRow(RenamedRow(rows[i], ids)) && ValidRow(RenamedRow(rows[i], ids)) {
      RenamedRowClean(rows[i], ids);
    }
    TableRoundTrip(table, rows, ids);
    hide DecodeRows, EncodeRows, RenameAll;
  }

  lemma {:induction false} CompaniesClean(s: Store, l: seq<Id>)
    requires CanonicalStore(s) && forall id :: id in l ==> id in s.companies
    ensures CleanRows(CompanyRows(s.companies, l))
  {
    hide CanonicalRow, ValidRow;
    forall i | 0 <= i < |l| ensures CanonicalRow(CompanyRow(l[i], s.companies[l[i]])) && ValidRow(CompanyRow(l[i], s.companies[l[i]])) {
      assert l[i] in s.companies;
    }
  }

  lemma {:induction false} ClientsClean(s: Store, l: seq<Id>)
    requires CanonicalStore(s) && forall id :: id in l ==> id in s.clients
    ensures CleanRows(ClientRows(s.clients, l))
  {
    hide CanonicalRow;
    forall i | 0 <= i < |l| ensures CanonicalRow(ClientRow(l[i], s.clients[l[i]])) {
      assert l[i] in s.clients;
    }
  }

  lemma {:induction false} InvoiceValid(s: Store, id: Id)
    requires Inv(s) && id in s.invoices
    ensures ValidRow(InvoiceRow(id, s.invoices[id]))
  {
    hide Inv, PartiesExist, LifecycleOk, TotalsOf, ValidLine, PaidOn, PaidMatches, SeriesOk, NotesOk, PaymentsOk;
    InvoiceFacts(s, id);
  }

  lemma {:induction false} InvoicesClean(s: Store, l: seq<Id>)
    requires CanonicalStore(s) && Inv(s) && forall id :: id in l ==> id in s.invoices
    ensures CleanRows(InvoiceRows(s.invoices, l))
  {
    hide CanonicalRow, ValidRow, Inv;
    forall i | 0 <= i < |l| ensures CanonicalRow(InvoiceRow(l[i], s.invoices[l[i]])) && ValidRow(InvoiceRow(l[i], s.invoices[l[i]])) {
      assert l[i] in s.invoices;
      InvoiceValid(s, l[i]);
    }
  }

  lemma {:induction false} QuoteValid(s: Store, id: Id)
    requires Inv(s) && id in s.quotes
    ensures ValidRow(QuoteRow(id, s.quotes[id]))
  {
    hide Inv, PartiesExist, TotalsOf, ValidLine;
    QuoteIds(s);
    assert QuoteOk(s.companies, s.clients, s.quotes[id]);
  }

  lemma {:induction false} QuotesClean(s: Store, l: seq<Id>)
    requires CanonicalStore(s) && Inv(s) && forall id :: id in l ==> id in s.quotes
    ensures CleanRows(QuoteRows(s.quotes, l))
  {
    hide CanonicalRow, ValidRow, Inv;
    forall i | 0 <= i < |l| ensures CanonicalRow(QuoteRow(l[i], s.quotes[l[i]])) && ValidRow(QuoteRow(l[i], s.quotes[l[i]])) {
      assert l[i] in s.quotes;
      QuoteValid(s, l[i]);
    }
  }

  lemma {:induction false} MirrorValid(inv: Invoice, note: CreditNote)
    requires NoteMirrors(note, inv) && ValidLines(inv.lines) && inv.subtotal >= 0 && inv.totalVat >= 0 && inv.totalTtc >= 0
    ensures ValidRow(NoteRow("", note))
  {
    forall l | l in note.lines ensures ValidNoteLine(l) {
      var i :| 0 <= i < |inv.lines| && MirroredLines(inv.lines)[i] == l;
      assert inv.lines[i] in inv.lines;
    }
  }

  lemma {:induction false} NoteValid(s: Store, id: Id)
    requires Inv(s) && id in s.notes
    ensures ValidRow(NoteRow(id, s.notes[id]))
  {
    hide Inv, PartiesExist, LifecycleOk, TotalsOf, ValidLine, ValidNoteLine, PaidOn, PaidMatches, SeriesOk, PaymentsOk, NoteMirrors;
    StoreFacts(s);
    InvoiceFacts(s, s.notes[id].invoiceId);
    MirrorValid(s.invoices[s.notes[id].invoiceId], s.notes[id]);
  }

  lemma {:induction false} NotesClean(s: Store, l: seq<Id>)
    requires CanonicalStore(s) && Inv(s) && forall id :: id in l ==> id in s.notes
    ensures CleanRows(NoteRows(s.notes, l))
  {
    hide CanonicalRow, ValidRow, Inv;
    forall i | 0 <= i < |l| ensures CanonicalRow(NoteRow(l[i], s.notes[l[i]])) && ValidRow(NoteRow(l[i], s.notes[l[i]])) {
      assert l[i] in s.notes;
      NoteValid(s, l[i]);
    }
  }

  lemma {:induction false} PaymentFacts(s: Store, p: Payment)
    requires CanonicalStore(s) && Inv(s) && p in s.payments
    ensures CanonicalRow(PaymentRow(p)) && ValidRow(PaymentRow(p))
  {
    hide Inv, InvoicesOk, NotesOk, SeriesOk, PaidMatches, Canonical, CanonicalLines;
    StoreFacts(s);
    assert CanonicalRow(InvoiceRow(p.invoiceId, s.invoices[p.invoiceId]));
  }

  lemma {:induction false} PaymentsClean(s: Store, ps: seq<Payment>)
    requires CanonicalStore(s) && Inv(s) && multiset(ps) == multiset(s.payments)
    ensures CleanRows(PaymentRows(ps))
  {
    hide CanonicalStore, Inv, CanonicalRow, ValidRow;
    forall i | 0 <= i < |ps| ensures CanonicalRow(PaymentRow(ps[i])) && ValidRow(PaymentRow(ps[i])) {
      assert ps[i] in multiset(ps);
      assert ps[i] in s.payments;
      PaymentFacts(s, ps[i]);
    }
  }

  lemma {:induction false} SomeMember(ps: seq<Payment>)
    ensures ps == [] || exists p :: p in ps
  {
    if ps != [] {
      assert ps[0] in ps;
    }
  }

  /** A sound organization without companies has no rows and no counters at all. */
  lemma {:induction false} NothingThere(t: Store)
    requires Inv(t) && ScopesOk(t) && t.companies == map[]
    ensures t.clients == map[] && t.invoices == map[] && t.quotes == map[] && t.notes == map[] && t.payments == [] && t.counters == map[]
  {
    hide TotalsFrozen, SoundLines, LifecycleOk, SeriesOk, NoteMirrors, PaidMatches;
    assert forall id :: id in t.clients ==> false;
    assert t.clients == map[];
    assert forall id :: id in t.invoices ==> false;
    assert t.invoices == map[];
    assert forall id :: id in t.quotes ==> false;
    assert forall id :: id in t.notes ==> false;
    assert forall p :: p in t.payments ==> p.invoiceId in t.invoices;
    SomeMember(t.payments);
    assert forall scope :: scope in t.counters ==> false;
  }

  /** Numbers never meet; references are what may. */
  lemma {:induction false} KeysApart(s: Store, ids: map<string, string>)
    requires Inv(s)
    ensures InvoiceReferencesApart(s.invoices, ids) ==> InvoiceKeysApart(s.invoices, ids)
    ensures QuoteReferencesApart(s.quotes, ids) ==> QuoteKeysApart(s.quotes, ids)
    ensures NoteReferencesApart(s.notes, ids) ==> NoteKeysApart(s.notes, ids)
  {
    hide Inv, SeriesOk, InvoicesOk, PaymentsOk, NotesOk, InvoiceReferencesApart, NoteReferencesApart, QuoteReferencesApart;
    StoreFacts(s);
    SequencesApart(s);
  }

  lemma {:induction false} SequencesApart(s: Store)
    requires SeriesOk(s)
    ensures NumberedOnce(s.invoices) && NotesNumberedOnce(s.notes)
    ensures forall a, b :: a in s.quotes && b in s.quotes && a != b && s.quotes[a].companyId == s.quotes[b].companyId ==>
      s.quotes[a].sequence != s.quotes[b].sequence
  {
    var any := "";
    InvoiceSeriesAsSet(s, any);
    NoteSeriesAsSet(s, any);
    var t := QuoteTickets(s.quotes);
    forall a, b | a in s.quotes && b in s.quotes && a != b && s.quotes[a].companyId == s.quotes[b].companyId
      ensures s.quotes[a].sequence != s.quotes[b].sequence
    {
      assert a in t && b in t && t[a] != t[b];
    }
  }

  lemma {:induction false} NamedKeys<V>(l: seq<Id>, keys: set<Id>, vals: map<Id, V>, ids: map<string, string>)
    requires Lists(l, keys) && Injective(ids) && keys <= ids.Keys && keys <= vals.Keys
    ensures Named(l, vals, ids).Keys == RenamedSet(keys, ids)
    ensures forall id :: id in keys ==> Renamed(id, ids) in Named(l, vals, ids) && Named(l, vals, ids)[Renamed(id, ids)] == vals[id]
  {
    NamedFacts(l, vals, ids);
    hide Renamed, Injective, Named;
  }

  // The store after each of the six tables.

  function WithCompanies(t: Store, s: Store, l: Listing, ids: map<string, string>): Store
    requires ListsStore(l, s)
  {
    t.(companies := Named(l.companies, CompaniesUnder(s.companies, ids), ids), usedIds := t.usedIds + IdsNamed(l.companies, ids))
  }

  function WithClients(t: Store, s: Store, l: Listing, ids: map<string, string>): Store
    requires ListsStore(l, s)
  {
    var u := WithCompanies(t, s, l, ids);
    u.(clients := Named(l.clients, ClientsUnder(s.clients, ids), ids), usedIds := u.usedIds + IdsNamed(l.clients, ids))
  }

  function WithInvoices(t: Store, s: Store, l: Listing, ids: map<string, string>): Store
    requires ListsStore(l, s)
  {
    var u := WithClients(t, s, l, ids);
    u.(invoices := Named(l.invoices, InvoicesUnder(s.invoices, ids), ids), usedIds := u.usedIds + IdsNamed(l.invoices, ids))
  }

  function WithQuotes(t: Store, s: Store, l: Listing, ids: map<string, string>): Store
    requires ListsStore(l, s)
  {
    var u := WithInvoices(t, s, l, ids);
    u.(quotes := Named(l.quotes, QuotesUnder(s.quotes, ids), ids), usedIds := u.usedIds + IdsNamed(l.quotes, ids))
  }

  function WithNotes(t: Store, s: Store, l: Listing, ids: map<string, string>): Store
    requires ListsStore(l, s)
  {
    var u := WithQuotes(t, s, l, ids);
    u.(notes := Named(l.notes, NotesUnder(s.notes, ids), ids), usedIds := u.usedIds + IdsNamed(l.notes, ids))
  }

  function WithPayments(t: Store, s: Store, l: Listing, ids: map<string, string>): Store
    requires ListsStore(l, s)
  {
    var u := WithNotes(t, s, l, ids);
    u.(payments := u.payments + RenamedPayments(PaymentsByInvoice(s.payments, l.invoices), ids))
  }

  /** What the theorem below asks of the source, of the target and of the renaming. */
  ghost predicate Restorable(t: Store, s: Store, l: Listing, ids: map<string, string>) {
    && Inv(s) && ScopesOk(s) && CanonicalStore(s) && ListsStore(l, s) && Covers(ids, s)
    && Inv(t) && ScopesOk(t) && t.companies == map[]
  }

  lemma {:induction false} RestorableFacts(t: Store, s: Store, l: Listing, ids: map<string, string>)
    requires Restorable(t, s, l, ids)
    ensures Inv(s) && CanonicalStore(s) && ListsStore(l, s) && Injective(ids) && CanonicalValues(ids) && t.companies == map[]
    ensures s.companies.Keys <= ids.Keys && s.clients.Keys <= ids.Keys && s.invoices.Keys <= ids.Keys
    ensures s.quotes.Keys <= ids.Keys && s.notes.Keys <= ids.Keys
    ensures t.clients == map[] && t.invoices == map[] && t.quotes == map[] && t.notes == map[] && t.payments == [] && t.counters == map[]
  {
    hide Inv, CanonicalStore, ListsStore, ScopesOk, CanonicalValues;
    NothingThere(t);
  }

  lemma {:induction false} Joins(s: Store)
    requires Inv(s)
    ensures forall id :: id in s.clients ==> s.clients[id].companyId in s.companies
    ensures forall id :: id in s.invoices ==> s.invoices[id].companyId in s.companies && s.invoices[id].clientId in s.clients
    ensures forall id :: id in s.quotes ==> s.quotes[id].companyId in s.companies && s.quotes[id].clientId in s.clients
    ensures forall id :: id in s.notes ==>
      s.notes[id].companyId in s.companies && s.notes[id].clientId in s.clients && s.notes[id].invoiceId in s.invoices
    ensures forall p :: p in s.payments ==> p.invoiceId in s.invoices
  {
    hide TotalsFrozen, SoundLines, LifecycleOk, SeriesOk, PaidMatches;
  }

  lemma {:induction false} CompanyRowsTable(m: map<Id, Company>, l: seq<Id>)
    requires forall id :: id in l ==> id in m
    ensures forall i :: 0 <= i < |l| ==> TableOf(CompanyRows(m, l)[i]) == Companies
  {
  }

  lemma {:induction false} ClientRowsTable(m: map<Id, Client>, l: seq<Id>)
    requires forall id :: id in l ==> id in m
    ensures forall i :: 0 <= i < |l| ==> TableOf(ClientRows(m, l)[i]) == Clients
  {
  }

  lemma {:induction false} InvoiceRowsTable(m: map<Id, Invoice>, l: seq<Id>)
    requires forall id :: id in l ==> id in m
    ensures forall i :: 0 <= i < |l| ==> TableOf(InvoiceRows(m, l)[i]) == Invoices
  {
  }

  lemma {:induction false} QuoteRowsTable(m: map<Id, Quote>, l: seq<Id>)
    requires forall id :: id in l ==> id in m
    ensures forall i :: 0 <= i < |l| ==> TableOf(QuoteRows(m, l)[i]) == Quotes
  {
  }

  lemma {:induction false} NoteRowsTable(m: map<Id, CreditNote>, l: seq<Id>)
    requires forall id :: id in l ==> id in m
    ensures forall i :: 0 <= i < |l| ==> TableOf(NoteRows(m, l)[i]) == CreditNotes
  {
  }

  lemma {:induction false} PaymentRowsTable(ps: seq<Payment>)
    ensures forall i :: 0 <= i < |ps| ==> TableOf(PaymentRows(ps)[i]) == Payments
  {
  }

  // Each table, onto a store that has the ones before it.

  lemma {:induction false} CompaniesOnto(u: Store, m: map<Id, Company>, l: seq<Id>, ids: map<string, string>)
    requires u.companies == map[] && Distinct(l) && Injective(ids) && CanonicalValues(ids) && forall id :: id in l ==> id in m && id in ids
    requires CleanRows(CompanyRows(m, l))
    ensures RestoreTable(u, Companies, Rename(Node(List, EncodeRows(CompanyRows(m, l))), ids))
         == Ok(u.(companies := Named(l, CompaniesUnder(m, ids), ids), usedIds := u.usedIds + IdsNamed(l, ids)))
  {
    hide *;
    CompanyRowsTable(m, l);
    TableRestored(u, Companies, CompanyRows(m, l), ids);
    AddCompanies(u, l, m, ids);
  }

  lemma {:induction false} ClientsOnto(u: Store, m: map<Id, Client>, l: seq<Id>, ids: map<string, string>)
    requires u.clients == map[] && Distinct(l) && Injective(ids) && CanonicalValues(ids) && forall id :: id in l ==> id in m && id in ids
    requires CleanRows(ClientRows(m, l)) && forall id :: id in l ==> Renamed(m[id].companyId, ids) in u.companies
    ensures RestoreTable(u, Clients, Rename(Node(List, EncodeRows(ClientRows(m, l))), ids))
         == Ok(u.(clients := Named(l, ClientsUnder(m, ids), ids), usedIds := u.usedIds + IdsNamed(l, ids)))
  {
    hide *;
    ClientRowsTable(m, l);
    TableRestored(u, Clients, ClientRows(m, l), ids);
    AddClients(u, l, m, ids);
  }

  lemma {:induction false} InvoicesOnto(u: Store, m: map<Id, Invoice>, l: seq<Id>, ids: map<string, string>)
    requires u.invoices == map[] && Distinct(l) && Injective(ids) && CanonicalValues(ids) && InvoiceKeysApart(m, ids)
    requires forall id :: id in l ==> id in m && id in ids && m[id].companyId in ids
    requires CleanRows(InvoiceRows(m, l))
    requires forall id :: id in l ==> Renamed(m[id].companyId, ids) in u.companies && Renamed(m[id].clientId, ids) in u.clients
    ensures RestoreTable(u, Invoices, Rename(Node(List, EncodeRows(InvoiceRows(m, l))), ids))
         == Ok(u.(invoices := Named(l, InvoicesUnder(m, ids), ids), usedIds := u.usedIds + IdsNamed(l, ids)))
  {
    hide *;
    InvoiceRowsTable(m, l);
    TableRestored(u, Invoices, InvoiceRows(m, l), ids);
    AddInvoices(u, l, m, ids);
  }

  lemma {:induction false} QuotesOnto(u: Store, m: map<Id, Quote>, l: seq<Id>, ids: map<string, string>)
    requires u.quotes == map[] && Distinct(l) && Injective(ids) && CanonicalValues(ids) && QuoteKeysApart(m, ids)
    requires forall id :: id in l ==> id in m && id in ids && m[id].companyId in ids
    requires CleanRows(QuoteRows(m, l))
    requires forall id :: id in l ==> Renamed(m[id].companyId, ids) in u.companies && Renamed(m[id].clientId, ids) in u.clients
    ensures RestoreTable(u, Quotes, Rename(Node(List, EncodeRows(QuoteRows(m, l))), ids))
         == Ok(u.(quotes := Named(l, QuotesUnder(m, ids), ids), usedIds := u.usedIds + IdsNamed(l, ids)))
  {
    hide *;
    QuoteRowsTable(m, l);
    TableRestored(u, Quotes, QuoteRows(m, l), ids);
    AddQuotes(u, l, m, ids);
  }

  lemma {:induction false} NotesOnto(u: Store, m: map<Id, CreditNote>, l: seq<Id>, ids: map<string, string>)
    requires u.notes == map[] && Distinct(l) && Injective(ids) && CanonicalValues(ids) && NoteKeysApart(m, ids)
    requires forall id :: id in l ==> id in m && id in ids && m[id].companyId in ids
    requires CleanRows(NoteRows(m, l))
    requires forall id :: id in l ==>
      Renamed(m[id].companyId, ids) in u.companies && Renamed(m[id].clientId, ids) in u.clients && Renamed(m[id].invoiceId, ids) in u.invoices
    ensures RestoreTable(u, CreditNotes, Rename(Node(List, EncodeRows(NoteRows(m, l))), ids))
         == Ok(u.(notes := Named(l, NotesUnder(m, ids), ids), usedIds := u.usedIds + IdsNamed(l, ids)))
  {
    hide *;
    NoteRowsTable(m, l);
    TableRestored(u, CreditNotes, NoteRows(m, l), ids);
    AddNotes(u, l, m, ids);
  }

  lemma {:induction false} PaymentsOnto(u: Store, ps: seq<Payment>, ids: map<string, string>)
    requires CanonicalValues(ids) && CleanRows(PaymentRows(ps)) && forall p :: p in ps ==> Renamed(p.invoiceId, ids) in u.invoices
    ensures RestoreTable(u, Payments, Rename(Node(List, EncodeRows(PaymentRows(ps))), ids))
         == Ok(u.(payments := u.payments + RenamedPayments(ps, ids)))
  {
    hide *;
    PaymentRowsTable(ps);
    TableRestored(u, Payments, PaymentRows(ps), ids);
    AddPayments(u, ps, ids);
  }

  /** What the six steps need to know about the source's keys. */
  lemma {:induction false} Listed(s: Store, l: Listing)
    requires ListsStore(l, s)
    ensures Distinct(l.companies) && Distinct(l.clients) && Distinct(l.invoices) && Distinct(l.quotes) && Distinct(l.notes)
    ensures forall id :: id in l.companies <==> id in s.companies
    ensures forall id :: id in l.clients <==> id in s.clients
    ensures forall id :: id in l.invoices <==> id in s.invoices
    ensures forall id :: id in l.quotes <==> id in s.quotes
    ensures forall id :: id in l.notes <==> id in s.notes
    ensures Lists(l.companies, s.companies.Keys) && Lists(l.clients, s.clients.Keys) && Lists(l.invoices, s.invoices.Keys)
    ensures Lists(l.quotes, s.quotes.Keys) && Lists(l.notes, s.notes.Keys) && Lists(l.scopes, s.counters.Keys)
  {
    hide Distinct;
  }

  lemma {:induction false} InIds<V>(m: map<Id, V>, ids: map<string, string>)
    requires m.Keys <= ids.Keys
    ensures forall id :: id in m ==> id in ids
  {
    assert forall id :: id in m ==> id in m.Keys;
  }

  /** The joins of the source hold in the restored tables. */
  lemma {:induction false} CompanyJoin(s: Store, l: Listing, ids: map<string, string>)
    requires Lists(l.companies, s.companies.Keys) && Injective(ids) && s.companies.Keys <= ids.Keys
    ensures forall id :: id in s.companies ==> Renamed(id, ids) in Named(l.companies, CompaniesUnder(s.companies, ids), ids)
  {
    hide Injective, Named, Renamed, RenamedCompany;
    NamedKeys(l.companies, s.companies.Keys, CompaniesUnder(s.companies, ids), ids);
  }

  lemma {:induction false} ClientJoin(s: Store, l: Listing, ids: map<string, string>)
    requires Lists(l.clients, s.clients.Keys) && Injective(ids) && s.clients.Keys <= ids.Keys
    ensures forall id :: id in s.clients ==> Renamed(id, ids) in Named(l.clients, ClientsUnder(s.clients, ids), ids)
  {
    hide Injective, Named, Renamed, RenamedClient;
    NamedKeys(l.clients, s.clients.Keys, ClientsUnder(s.clients, ids), ids);
  }

  lemma {:induction false} InvoiceJoin(s: Store, l: Listing, ids: map<string, string>)
    requires Lists(l.invoices, s.invoices.Keys) && Injective(ids) && s.invoices.Keys <= ids.Keys
    ensures forall id :: id in s.invoices ==> Renamed(id, ids) in Named(l.invoices, InvoicesUnder(s.invoices, ids), ids)
  {
    hide Injective, Named, Renamed, RenamedInvoice;
    NamedKeys(l.invoices, s.invoices.Keys, InvoicesUnder(s.invoices, ids), ids);
  }

  lemma {:induction false} CompaniesBack(t: Store, s: Store, l: Listing, ids: map<string, string>)
    requires ListsStore(l, s) && Restorable(t, s, l, ids)
    ensures RestoreTable(t, Companies, Rename(Node(List, EncodeRows(CompanyRows(s.companies, l.companies))), ids))
         == Ok(WithCompanies(t, s, l, ids))
  {
    hide Restorable, Covers, Inv, CanonicalStore, ScopesOk, CanonicalValues, Injective, RestoreTable, Named, IdsNamed, EncodeRows, Rename,
         CleanRows, Distinct, InvoiceKeysApart, QuoteKeysApart, NoteKeysApart;
    RestorableFacts(t, s, l, ids);
    Listed(s, l);
    InIds(s.companies, ids);
    CompaniesClean(s, l.companies);
    CompaniesOnto(t, s.companies, l.companies, ids);
  }

  lemma {:induction false} ClientsBack(t: Store, s: Store, l: Listing, ids: map<string, string>)
    requires ListsStore(l, s) && Restorable(t, s, l, ids)
    ensures RestoreTable(WithCompanies(t, s, l, ids), Clients, Rename(Node(List, EncodeRows(ClientRows(s.clients, l.clients))), ids))
         == Ok(WithClients(t, s, l, ids))
  {
    hide Restorable, Covers, Inv, CanonicalStore, ScopesOk, CanonicalValues, Injective, RestoreTable, Named, IdsNamed, EncodeRows, Rename,
         CleanRows, Distinct, Lists, Renamed, RenamedCompany, RenamedClient, InvoiceKeysApart, QuoteKeysApart, NoteKeysApart;
    RestorableFacts(t, s, l, ids);
    Listed(s, l);
    Joins(s);
    InIds(s.clients, ids);
    CompanyJoin(s, l, ids);
    ClientsClean(s, l.clients);
    ClientsOnto(WithCompanies(t, s, l, ids), s.clients, l.clients, ids);
  }

  lemma {:induction false} InvoicesBack(t: Store, s: Store, l: Listing, ids: map<string, string>)
    requires ListsStore(l, s) && Restorable(t, s, l, ids) && InvoiceReferencesApart(s.invoices, ids)
    ensures RestoreTable(WithClients(t, s, l, ids), Invoices, Rename(Node(List, EncodeRows(InvoiceRows(s.invoices, l.invoices))), ids))
         == Ok(WithInvoices(t, s, l, ids))
  {
    hide Restorable, Covers, Inv, CanonicalStore, ScopesOk, CanonicalValues, Injective, RestoreTable, Named, IdsNamed, EncodeRows, Rename,
         CleanRows, Distinct, Lists, Renamed, RenamedCompany, RenamedClient, RenamedInvoice, InvoiceKeysApart, QuoteKeysApart, NoteKeysApart,
         InvoiceReferencesApart, QuoteReferencesApart, NoteReferencesApart;
    RestorableFacts(t, s, l, ids);
    KeysApart(s, ids);
    Listed(s, l);
    Joins(s);
    InIds(s.companies, ids);
    InIds(s.invoices, ids);
    CompanyJoin(s, l, ids);
    ClientJoin(s, l, ids);
    InvoicesClean(s, l.invoices);
    InvoicesOnto(WithClients(t, s, l, ids), s.invoices, l.invoices, ids);
  }

  lemma {:induction false} QuotesBack(t: Store, s: Store, l: Listing, ids: map<string, string>)
    requires ListsStore(l, s) && Restorable(t, s, l, ids) && QuoteReferencesApart(s.quotes, ids)
    ensures RestoreTable(WithInvoices(t, s, l, ids), Quotes, Rename(Node(List, EncodeRows(QuoteRows(s.quotes, l.quotes))), ids))
         == Ok(WithQuotes(t, s, l, ids))
  {
    hide Restorable, Covers, Inv, CanonicalStore, ScopesOk, CanonicalValues, Injective, RestoreTable, Named, IdsNamed, EncodeRows, Rename,
         CleanRows, Distinct, Lists, Renamed, RenamedCompany, RenamedClient, RenamedInvoice, RenamedQuote, InvoiceKeysApart, QuoteKeysApart,
         NoteKeysApart, InvoiceReferencesApart, QuoteReferencesApart, NoteReferencesApart;
    RestorableFacts(t, s, l, ids);
    KeysApart(s, ids);
    Listed(s, l);
    Joins(s);
    InIds(s.companies, ids);
    InIds(s.quotes, ids);
    CompanyJoin(s, l, ids);
    ClientJoin(s, l, ids);
    QuotesClean(s, l.quotes);
    QuotesOnto(WithInvoices(t, s, l, ids), s.quotes, l.quotes, ids);
  }

  lemma {:induction false} NotesBack(t: Store, s: Store, l: Listing, ids: map<string, string>)
    requires ListsStore(l, s) && Restorable(t, s, l, ids) && NoteReferencesApart(s.notes, ids)
    ensures RestoreTable(WithQuotes(t, s, l, ids), CreditNotes, Rename(Node(List, EncodeRows(NoteRows(s.notes, l.notes))), ids))
         == Ok(WithNotes(t, s, l, ids))
  {
    hide Restorable, Covers, Inv, CanonicalStore, ScopesOk, CanonicalValues, Injective, RestoreTable, Named, IdsNamed, EncodeRows, Rename,
         CleanRows, Distinct, Lists, Renamed, RenamedCompany, RenamedClient, RenamedInvoice, RenamedQuote, RenamedNote, InvoiceKeysApart,
         QuoteKeysApart, NoteKeysApart, InvoiceReferencesApart, QuoteReferencesApart, NoteReferencesApart;
    RestorableFacts(t, s, l, ids);
    KeysApart(s, ids);
    Listed(s, l);
    Joins(s);
    InIds(s.companies, ids);
    InIds(s.notes, ids);
    CompanyJoin(s, l, ids);
    ClientJoin(s, l, ids);
    InvoiceJoin(s, l, ids);
    NotesClean(s, l.notes);
    NotesOnto(WithQuotes(t, s, l, ids), s.notes, l.notes, ids);
  }

  lemma {:induction false} PaymentsBack(t: Store, s: Store, l: Listing, ids: map<string, string>)
    requires ListsStore(l, s) && Restorable(t, s, l, ids)
    ensures RestoreTable(WithNotes(t, s, l, ids), Payments,
                         Rename(Node(List, EncodeRows(PaymentRows(PaymentsByInvoice(s.payments, l.invoices)))), ids))
         == Ok(WithPayments(t, s, l, ids))
  {
    hide Restorable, Covers, Inv, CanonicalStore, ScopesOk, CanonicalValues, Injective, RestoreTable, Named, IdsNamed, EncodeRows, Rename,
         CleanRows, Distinct, Lists, Renamed, RenamedCompany, RenamedClient, RenamedInvoice, RenamedQuote, RenamedNote, PaymentsByInvoice,
         InvoiceKeysApart, QuoteKeysApart, NoteKeysApart;
    RestorableFacts(t, s, l, ids);
    Listed(s, l);
    Joins(s);
    InvoiceJoin(s, l, ids);
    var ps := PaymentsByInvoice(s.payments, l.invoices);
    GroupedIsPermutation(s.payments, l.invoices);
    PaymentsClean(s, ps);
    SameMembers(ps, s.payments);
    PaymentsOnto(WithNotes(t, s, l, ids), ps, ids);
  }

  lemma {:induction false} SameMembers(a: seq<Payment>, b: seq<Payment>)
    requires multiset(a) == multiset(b)
    ensures forall p :: p in a ==> p in b
  {
    forall p | p in a ensures p in b {
      assert p in multiset(a);
    }
  }

  lemma {:induction false} TablesBack(t: Store, s: Store, l: Listing, ids: map<string, string>, organization: Json)
    requires ListsStore(l, s) && Restorable(t, s, l, ids) && ReferencesApart(s, ids)
    ensures var p := RenamedPayload(Exported(s, l, organization), ids);
            RestoreInto(t, p) == RestoreRest(WithPayments(t, s, l, ids), p)
  {
    CompaniesBack(t, s, l, ids);
    ClientsBack(t, s, l, ids);
    InvoicesBack(t, s, l, ids);
    QuotesBack(t, s, l, ids);
    NotesBack(t, s, l, ids);
    PaymentsBack(t, s, l, ids);
    hide Inv, KeysOk, CanonicalStore, ScopesOk, Covers, RestoreTable, RestoreRest, Rename, WithCompanies, WithClients, WithInvoices, WithQuotes,
         WithNotes, WithPayments, EncodeRows, CompanyRows, ClientRows, InvoiceRows, QuoteRows, NoteRows, PaymentRows, AuditItems,
         SequenceItems;
  }

  const RESTORED := AuditEntry(Restore, "backup", None)

  lemma {:induction false} RestBack(u: Store, t: Store, s: Store, l: Listing, ids: map<string, string>, organization: Json)
    requires ListsStore(l, s) && Restorable(t, s, l, ids) && u.counters == map[]
    ensures var r := RestoreRest(u, RenamedPayload(Exported(s, l, organization), ids));
            && r.Ok? && CountersNamed(l.scopes, s.counters, r.value.counters, ids)
            && r.value == u.(counters := r.value.counters, audit := u.audit + RenamedAudits(Newest(s.audit), ids) + [RESTORED])
  {
    hide Inv, CanonicalStore, Covers, KnownScope, Canonical, CanonicalValues, Injective, CountersNamed, EncodeRows, AuditItems, SequenceItems,
         RenamedAudits, InvoiceKeysApart, QuoteKeysApart, NoteKeysApart, Rename, RenameAll, CompanyRows, ClientRows, InvoiceRows, QuoteRows,
         NoteRows, PaymentRows, Newest;
    RestorableFacts(t, s, l, ids);
    var p := RenamedPayload(Exported(s, l, organization), ids);
    ListRenamed(SequenceItems(s.counters, l.scopes), ids);
    ListRenamed(AuditItems(Newest(s.audit)), ids);
    assert p.sequences == Node(List, RenameAll(SequenceItems(s.counters, l.scopes), ids));
    assert p.auditLog == Node(List, RenameAll(AuditItems(Newest(s.audit)), ids));
    hide Exported, RenamedPayload;
    CountersRestored(s, l.scopes, ids);
    AuditsClean(s);
    hide Restorable;
    AuditsRestored(Newest(s.audit), ids);
  }

  lemma {:induction false} AuditsClean(s: Store)
    requires CanonicalStore(s)
    ensures forall i :: 0 <= i < |Newest(s.audit)| ==> CanonicalOpt(Newest(s.audit)[i].targetId)
  {
    hide CanonicalRow, ValidRow, CanonicalOpt;
  }

  lemma {:induction false} ListRenamed(items: seq<Json>, ids: map<string, string>)
    ensures Rename(Node(List, items), ids) == Node(List, RenameAll(items, ids))
  {
  }

  lemma {:induction false} CountersNamedCopied(m: map<Scope, nat>, l: seq<Scope>, m': map<Scope, nat>, ids: map<string, string>)
    requires Lists(l, m.Keys) && CountersNamed(l, m, m', ids)
    ensures CountersCopied(m, m', ids)
  {
    hide RenamedScope;
    forall y ensures y in m'.Keys <==> y in RenamedScopes(m.Keys, ids) {
      if y in m' {
        var scope :| scope in l && RenamedScope(scope, ids) == y;
        assert scope in m.Keys;
      }
    }
  }

  lemma {:induction false} PartiesCopiedBack(s: Store, l: Listing, ids: map<string, string>)
    requires ListsStore(l, s) && Injective(ids) && s.companies.Keys <= ids.Keys && s.clients.Keys <= ids.Keys
    ensures CompaniesCopied(s.companies, Named(l.companies, CompaniesUnder(s.companies, ids), ids), ids)
    ensures ClientsCopied(s.clients, Named(l.clients, ClientsUnder(s.clients, ids), ids), ids)
  {
    hide Injective, Named, Renamed, Lists, RenamedCompany, RenamedClient, RenamedSet;
    NamedKeys(l.companies, s.companies.Keys, CompaniesUnder(s.companies, ids), ids);
    NamedKeys(l.clients, s.clients.Keys, ClientsUnder(s.clients, ids), ids);
  }

  lemma {:induction false} InvoicesCopiedBack(s: Store, l: Listing, ids: map<string, string>)
    requires ListsStore(l, s) && Injective(ids) && s.invoices.Keys <= ids.Keys
    ensures InvoicesCopied(s.invoices, Named(l.invoices, InvoicesUnder(s.invoices, ids), ids), ids)
  {
    hide Injective, Named, Renamed, Lists, RenamedInvoice, RenamedSet;
    NamedKeys(l.invoices, s.invoices.Keys, InvoicesUnder(s.invoices, ids), ids);
  }

  lemma {:induction false} QuotesCopiedBack(s: Store, l: Listing, ids: map<string, string>)
    requires ListsStore(l, s) && Injective(ids) && s.quotes.Keys <= ids.Keys
    ensures QuotesCopied(s.quotes, Named(l.quotes, QuotesUnder(s.quotes, ids), ids), ids)
  {
    hide Injective, Named, Renamed, Lists, RenamedQuote, RenamedSet;
    NamedKeys(l.quotes, s.quotes.Keys, QuotesUnder(s.quotes, ids), ids);
  }

  lemma {:induction false} NotesCopiedBack(s: Store, l: Listing, ids: map<string, string>)
    requires ListsStore(l, s) && Injective(ids) && s.notes.Keys <= ids.Keys
    ensures NotesCopied(s.notes, Named(l.notes, NotesUnder(s.notes, ids), ids), ids)
  {
    hide Injective, Named, Renamed, Lists, RenamedNote, RenamedSet;
    NamedKeys(l.notes, s.notes.Keys, NotesUnder(s.notes, ids), ids);
  }

  lemma {:induction false} PaymentsRegrouped(s: Store, l: seq<Id>, ids: map<string, string>)
    requires Inv(s) && Lists(l, s.invoices.Keys) && Injective(ids) && s.invoices.Keys <= ids.Keys
    ensures PaymentsCopied(s.invoices, s.payments, RenamedPayments(PaymentsByInvoice(s.payments, l), ids), ids)
  {
    Joins(s);
    hide Inv, Injective, PaidOn, Renamed, RenamedPayments, PaymentsByInvoice;
    var ps := PaymentsByInvoice(s.payments, l);
    GroupedIsPermutation(s.payments, l);
    RenamedPermutation(ps, s.payments, ids);
    forall p | p in ps ensures p.invoiceId in ids {
      assert p in multiset(ps);
      assert p in s.payments;
    }
    forall id | id in s.invoices ensures PaidOn(RenamedPayments(ps, ids), Renamed(id, ids)) == PaidOn(s.payments, id) {
      PaidOnRenamed(ps, ids, id);
      PaidOnGrouped(s.payments, l, id);
    }
  }

  lemma {:induction false} IdsRegistered(s: Store, l: seq<Id>, keys: set<Id>, ids: map<string, string>, used: set<Id>)
    requires Lists(l, keys) && IdsNamed(l, ids) <= used
    ensures RenamedSet(keys, ids) <= used
  {
    IdsNamedFacts(l, ids);
    hide Renamed, IdsNamed;
  }

  lemma {:induction false} AllIdsRegistered(t: Store, s: Store, l: Listing, ids: map<string, string>, r: Store)
    requires ListsStore(l, s) && r.usedIds == WithPayments(t, s, l, ids).usedIds
    requires r.companies.Keys == RenamedSet(s.companies.Keys, ids) && r.clients.Keys == RenamedSet(s.clients.Keys, ids)
    requires r.invoices.Keys == RenamedSet(s.invoices.Keys, ids) && r.quotes.Keys == RenamedSet(s.quotes.Keys, ids)
    requires r.notes.Keys == RenamedSet(s.notes.Keys, ids)
    ensures IdsOk(r)
  {
    hide Named, IdsNamed, RenamedSet, Lists;
    IdsRegistered(s, l.companies, s.companies.Keys, ids, r.usedIds);
    IdsRegistered(s, l.clients, s.clients.Keys, ids, r.usedIds);
    IdsRegistered(s, l.invoices, s.invoices.Keys, ids, r.usedIds);
    IdsRegistered(s, l.quotes, s.quotes.Keys, ids, r.usedIds);
    IdsRegistered(s, l.notes, s.notes.Keys, ids, r.usedIds);
    assert forall id :: id in r.companies ==> id in r.companies.Keys;
    assert forall id :: id in r.clients ==> id in r.clients.Keys;
    assert forall id :: id in r.invoices ==> id in r.invoices.Keys;
    assert forall id :: id in r.quotes ==> id in r.quotes.Keys;
    assert forall id :: id in r.notes ==> id in r.notes.Keys;
  }

  /** Disaster recovery: restoring an export into an organization without companies succeeds, unless two
      references of a company meet under the renaming, and gives the same ledger under new identifiers: the
      same rows with the same joins, the same payments, the counters verbatim, and the audit log's newest
      entries appended in their original order. */
  lemma {:induction false} RestoreOfExport(t: Store, s: Store, l: Listing, ids: map<string, string>, organization: Json)
    requires Restorable(t, s, l, ids) && ReferencesApart(s, ids)
    ensures var r := RestoreInto(t, RenamedPayload(Exported(s, l, organization), ids));
            r.Ok? && Copied(s, r.value, ids) && IdsOk(r.value)
            && r.value.audit == t.audit + RenamedAudits(Newest(s.audit), ids) + [RESTORED]
  {
    hide Inv, CanonicalStore, KnownScope, Canonical, CanonicalValues, Injective, CountersNamed, InvoiceKeysApart, QuoteKeysApart, NoteKeysApart,
         RestoreInto, RestoreRest, Named, IdsNamed, PaymentsByInvoice, RenamedAudits, RenamedPayload, Exported, Covers, Lists, Newest,
         CompaniesCopied, ClientsCopied, InvoicesCopied, QuotesCopied, NotesCopied, PaymentsCopied, CountersCopied, IdsOk;
    RestorableFacts(t, s, l, ids);
    TablesBack(t, s, l, ids, organization);
    var u := WithPayments(t, s, l, ids);
    RestBack(u, t, s, l, ids, organization);
    var r := RestoreInto(t, RenamedPayload(Exported(s, l, organization), ids)).value;
    PartiesCopiedBack(s, l, ids);
    InvoicesCopiedBack(s, l, ids);
    QuotesCopiedBack(s, l, ids);
    NotesCopiedBack(s, l, ids);
    PaymentsRegrouped(s, l.invoices, ids);
    CountersNamedCopied(s.counters, l.scopes, r.counters, ids);
    assert u.payments == RenamedPayments(PaymentsByInvoice(s.payments, l.invoices), ids);
    KeysCopied(s, r, ids);
    AllIdsRegistered(t, s, l, ids, r);
  }

  // ------------------------------------------------------------------ when a restore is refused

  lemma {:induction false} AddRowsLast(t: Store, rows: seq<Row>, last: Row)
    requires AddRows(t, rows + [last]).Ok?
    ensures AddRows(t, rows).Ok? && AddRows(t, rows + [last]) == AddRow(AddRows(t, rows).value, last)
  {
    hide AddRow;
    assert (rows + [last])[..|rows|] == rows;
  }

  lemma {:induction false} InvoiceNotTaken(invoices: map<Id, Invoice>, id: Id, i: Invoice, other: Id)
    requires !InvoiceKeyTaken(invoices, id, i) && other in invoices && other != id && invoices[other].companyId == i.companyId
    ensures i.reference.Some? ==> invoices[other].reference != i.reference
  {
  }

  lemma {:induction false} InvoiceRowTaken(v: Store, id: Id, i: Invoice, ids: map<string, string>)
    requires AddRow(v, RenamedRow(InvoiceRow(id, i), ids)).Ok?
    ensures AddRow(v, RenamedRow(InvoiceRow(id, i), ids)).value.invoices == v.invoices[Renamed(id, ids) := RenamedInvoice(i, ids)]
    ensures Renamed(id, ids) !in v.invoices && !InvoiceKeyTaken(v.invoices, Renamed(id, ids), RenamedInvoice(i, ids))
  {
    hide Renamed, RenamedInvoice, InvoiceKeyTaken;
  }

  lemma {:induction false} InvoiceRowsSnoc(m: map<Id, Invoice>, l: seq<Id>, ids: map<string, string>)
    requires l != [] && forall id :: id in l ==> id in m
    ensures RenamedRows(InvoiceRows(m, l), ids)
         == RenamedRows(InvoiceRows(m, l[..|l| - 1]), ids) + [RenamedRow(InvoiceRow(l[|l| - 1], m[l[|l| - 1]]), ids)]
  {
    hide RenamedRow;
  }

  /** What a table that was taken says about its rows: every one is there, and no two references met. */
  ghost predicate InvoicesKept(l: seq<Id>, m: map<Id, Invoice>, table: map<Id, Invoice>, ids: map<string, string>)
    requires forall id :: id in l ==> id in m
  {
    && (forall x :: x in l ==> Renamed(x, ids) in table && table[Renamed(x, ids)] == RenamedInvoice(m[x], ids))
    && (forall a, b :: a in l && b in l && a != b && m[a].companyId == m[b].companyId && m[a].reference.Some? ==>
          RenamedText(m[a].reference, ids) != RenamedText(m[b].reference, ids))
  }

  lemma {:induction false} RenamedSome(o: Option<string>, ids: map<string, string>)
    ensures RenamedText(o, ids).Some? <==> o.Some?
  {
  }

  lemma {:induction false} RenamedInvoiceKeys(i: Invoice, ids: map<string, string>)
    ensures RenamedInvoice(i, ids).companyId == Renamed(i.companyId, ids) && RenamedInvoice(i, ids).reference == RenamedText(i.reference, ids)
  {
  }

  /** The row taken last has none of the references taken before. */
  lemma {:induction false} InvoiceMeetsNone(l: seq<Id>, m: map<Id, Invoice>, table: map<Id, Invoice>, ids: map<string, string>, id: Id, a: Id)
    requires (forall x :: x in l ==> x in m) && id in m && InvoicesKept(l, m, table, ids)
    requires Renamed(id, ids) !in table && !InvoiceKeyTaken(table, Renamed(id, ids), RenamedInvoice(m[id], ids))
    requires a in l && m[a].companyId == m[id].companyId
    ensures m[id].reference.Some? ==> RenamedText(m[a].reference, ids) != RenamedText(m[id].reference, ids)
  {
    hide Renamed, RenamedText, InvoiceKeyTaken, RenamedInvoice;
    RenamedInvoiceKeys(m[a], ids);
    RenamedInvoiceKeys(m[id], ids);
    RenamedSome(m[id].reference, ids);
    assert table[Renamed(a, ids)] == RenamedInvoice(m[a], ids);
    hide InvoicesKept;
    InvoiceNotTaken(table, Renamed(id, ids), RenamedInvoice(m[id], ids), Renamed(a, ids));
  }

  lemma {:induction false} InvoiceRowsThere(l: seq<Id>, m: map<Id, Invoice>, table: map<Id, Invoice>, ids: map<string, string>)
    requires l != [] && forall id :: id in l ==> id in m
    requires InvoicesKept(l[..|l| - 1], m, table, ids) && Renamed(l[|l| - 1], ids) !in table
    ensures var table' := table[Renamed(l[|l| - 1], ids) := RenamedInvoice(m[l[|l| - 1]], ids)];
            forall x :: x in l ==> Renamed(x, ids) in table' && table'[Renamed(x, ids)] == RenamedInvoice(m[x], ids)
  {
    hide Renamed, RenamedText, RenamedInvoice;
    assert forall x :: x in l ==> x in l[..|l| - 1] || x == l[|l| - 1];
  }

  lemma {:induction false} InvoiceKeptNext(l: seq<Id>, m: map<Id, Invoice>, table: map<Id, Invoice>, ids: map<string, string>)
    requires l != [] && forall id :: id in l ==> id in m
    requires InvoicesKept(l[..|l| - 1], m, table, ids)
    requires var id := l[|l| - 1];
             Renamed(id, ids) !in table && !InvoiceKeyTaken(table, Renamed(id, ids), RenamedInvoice(m[id], ids))
    ensures InvoicesKept(l, m, table[Renamed(l[|l| - 1], ids) := RenamedInvoice(m[l[|l| - 1]], ids)], ids)
  {
    var n, id := |l| - 1, l[|l| - 1];
    assert forall x :: x in l ==> x in l[..n] || x == id;
    hide Renamed, RenamedText, InvoiceKeyTaken, RenamedInvoice;
    InvoiceRowsThere(l, m, table, ids);
    forall a, b | a in l && b in l && a != b && m[a].companyId == m[b].companyId && m[a].reference.Some?
      ensures RenamedText(m[a].reference, ids) != RenamedText(m[b].reference, ids)
    {
      if a == id {
        InvoiceMeetsNone(l[..n], m, table, ids, id, b);
      } else if b == id {
        InvoiceMeetsNone(l[..n], m, table, ids, id, a);
        RenamedSome(m[a].reference, ids);
        RenamedSome(m[id].reference, ids);
      }
    }
  }

  lemma {:induction false} InvoicesTaken(t: Store, l: seq<Id>, m: map<Id, Invoice>, ids: map<string, string>)
    requires forall id :: id in l ==> id in m
    requires AddRows(t, RenamedRows(InvoiceRows(m, l), ids)).Ok?
    ensures InvoicesKept(l, m, AddRows(t, RenamedRows(InvoiceRows(m, l), ids)).value.invoices, ids)
  {
    if l == [] {
      hide AddRows, RenamedRows;
    } else {
      hide *;
      var n := |l| - 1;
      assert l[n] in l && forall id :: id in l[..n] ==> id in l;
      InvoiceRowsSnoc(m, l, ids);
      AddRowsLast(t, RenamedRows(InvoiceRows(m, l[..n]), ids), RenamedRow(InvoiceRow(l[n], m[l[n]]), ids));
      InvoicesTaken(t, l[..n], m, ids);
      var v := AddRows(t, RenamedRows(InvoiceRows(m, l[..n]), ids)).value;
      InvoiceRowTaken(v, l[n], m[l[n]], ids);
      InvoiceKeptNext(l, m, v.invoices, ids);
    }
  }

  lemma {:induction false} QuoteNotTaken(quotes: map<Id, Quote>, q: Quote, other: Id)
    requires !QuoteKeyTaken(quotes, q) && other in quotes && quotes[other].companyId == q.companyId
    ensures quotes[other].reference != q.reference
  {
  }

  lemma {:induction false} QuoteRowTaken(v: Store, id: Id, i: Quote, ids: map<string, string>)
    requires AddRow(v, RenamedRow(QuoteRow(id, i), ids)).Ok?
    ensures AddRow(v, RenamedRow(QuoteRow(id, i), ids)).value.quotes == v.quotes[Renamed(id, ids) := RenamedQuote(i, ids)]
    ensures Renamed(id, ids) !in v.quotes && !QuoteKeyTaken(v.quotes, RenamedQuote(i, ids))
  {
    hide Renamed, RenamedQuote, QuoteKeyTaken;
  }

  lemma {:induction false} QuoteRowsSnoc(m: map<Id, Quote>, l: seq<Id>, ids: map<string, string>)
    requires l != [] && forall id :: id in l ==> id in m
    ensures RenamedRows(QuoteRows(m, l), ids)
         == RenamedRows(QuoteRows(m, l[..|l| - 1]), ids) + [RenamedRow(QuoteRow(l[|l| - 1], m[l[|l| - 1]]), ids)]
  {
    hide RenamedRow;
  }

  /** What a table that was taken says about its rows: every one is there, and no two references met. */
  ghost predicate QuotesKept(l: seq<Id>, m: map<Id, Quote>, table: map<Id, Quote>, ids: map<string, string>)
    requires forall id :: id in l ==> id in m
  {
    && (forall x :: x in l ==> Renamed(x, ids) in table && table[Renamed(x, ids)] == RenamedQuote(m[x], ids))
    && (forall a, b :: a in l && b in l && a != b && m[a].companyId == m[b].companyId ==>
          RenameText(m[a].reference, ids) != RenameText(m[b].reference, ids))
  }

  lemma {:induction false} RenamedQuoteKeys(i: Quote, ids: map<string, string>)
    ensures RenamedQuote(i, ids).companyId == Renamed(i.companyId, ids) && RenamedQuote(i, ids).reference == RenameText(i.reference, ids)
  {
  }

  /** The row taken last has none of the references taken before. */
  lemma {:induction false} QuoteMeetsNone(l: seq<Id>, m: map<Id, Quote>, table: map<Id, Quote>, ids: map<string, string>, id: Id, a: Id)
    requires (forall x :: x in l ==> x in m) && id in m && QuotesKept(l, m, table, ids)
    requires Renamed(id, ids) !in table && !QuoteKeyTaken(table, RenamedQuote(m[id], ids))
    requires a in l && m[a].companyId == m[id].companyId
    ensures RenameText(m[a].reference, ids) != RenameText(m[id].reference, ids)
  {
    hide Renamed, RenameText, QuoteKeyTaken, RenamedQuote;
    RenamedQuoteKeys(m[a], ids);
    RenamedQuoteKeys(m[id], ids);
    assert table[Renamed(a, ids)] == RenamedQuote(m[a], ids);
    hide QuotesKept;
    QuoteNotTaken(table, RenamedQuote(m[id], ids), Renamed(a, ids));
  }

  lemma {:induction false} QuoteRowsThere(l: seq<Id>, m: map<Id, Quote>, table: map<Id, Quote>, ids: map<string, string>)
    requires l != [] && forall id :: id in l ==> id in m
    requires QuotesKept(l[..|l| - 1], m, table, ids) && Renamed(l[|l| - 1], ids) !in table
    ensures var table' := table[Renamed(l[|l| - 1], ids) := RenamedQuote(m[l[|l| - 1]], ids)];
            forall x :: x in l ==> Renamed(x, ids) in table' && table'[Renamed(x, ids)] == RenamedQuote(m[x], ids)
  {
    hide Renamed, RenameText, RenamedQuote;
    assert forall x :: x in l ==> x in l[..|l| - 1] || x == l[|l| - 1];
  }

  lemma {:induction false} QuoteKeptNext(l: seq<Id>, m: map<Id, Quote>, table: map<Id, Quote>, ids: map<string, string>)
    requires l != [] && forall id :: id in l ==> id in m
    requires QuotesKept(l[..|l| - 1], m, table, ids)
    requires var id := l[|l| - 1];
             Renamed(id, ids) !in table && !QuoteKeyTaken(table, RenamedQuote(m[id], ids))
    ensures QuotesKept(l, m, table[Renamed(l[|l| - 1], ids) := RenamedQuote(m[l[|l| - 1]], ids)], ids)
  {
    var n, id := |l| - 1, l[|l| - 1];
    assert forall x :: x in l ==> x in l[..n] || x == id;
    hide Renamed, RenameText, QuoteKeyTaken, RenamedQuote;
    QuoteRowsThere(l, m, table, ids);
    forall a, b | a in l && b in l && a != b && m[a].companyId == m[b].companyId
      ensures RenameText(m[a].reference, ids) != RenameText(m[b].reference, ids)
    {
      if a == id {
        QuoteMeetsNone(l[..n], m, table, ids, id, b);
      } else if b == id {
        QuoteMeetsNone(l[..n], m, table, ids, id, a);
      }
    }
  }

  lemma {:induction false} QuotesTaken(t: Store, l: seq<Id>, m: map<Id, Quote>, ids: map<string, string>)
    requires forall id :: id in l ==> id in m
    requires AddRows(t, RenamedRows(QuoteRows(m, l), ids)).Ok?
    ensures QuotesKept(l, m, AddRows(t, RenamedRows(QuoteRows(m, l), ids)).value.quotes, ids)
  {
    if l == [] {
      hide AddRows, RenamedRows;
    } else {
      hide *;
      var n := |l| - 1;
      assert l[n] in l && forall id :: id in l[..n] ==> id in l;
      QuoteRowsSnoc(m, l, ids);
      AddRowsLast(t, RenamedRows(QuoteRows(m, l[..n]), ids), RenamedRow(QuoteRow(l[n], m[l[n]]), ids));
      QuotesTaken(t, l[..n], m, ids);
      var v := AddRows(t, RenamedRows(QuoteRows(m, l[..n]), ids)).value;
      QuoteRowTaken(v, l[n], m[l[n]], ids);
      QuoteKeptNext(l, m, v.quotes, ids);
    }
  }

  lemma {:induction false} NoteNotTaken(notes: map<Id, CreditNote>, note: CreditNote, other: Id)
    requires !NoteKeyTaken(notes, note) && other in notes && notes[other].companyId == note.companyId
    ensures notes[other].reference != note.reference
  {
  }

  lemma {:induction false} NoteRowTaken(v: Store, id: Id, i: CreditNote, ids: map<string, string>)
    requires AddRow(v, RenamedRow(NoteRow(id, i), ids)).Ok?
    ensures AddRow(v, RenamedRow(NoteRow(id, i), ids)).value.notes == v.notes[Renamed(id, ids) := RenamedNote(i, ids)]
    ensures Renamed(id, ids) !in v.notes && !NoteKeyTaken(v.notes, RenamedNote(i, ids))
  {
    hide Renamed, RenamedNote, NoteKeyTaken;
  }

  lemma {:induction false} NoteRowsSnoc(m: map<Id, CreditNote>, l: seq<Id>, ids: map<string, string>)
    requires l != [] && forall id :: id in l ==> id in m
    ensures RenamedRows(NoteRows(m, l), ids)
         == RenamedRows(NoteRows(m, l[..|l| - 1]), ids) + [RenamedRow(NoteRow(l[|l| - 1], m[l[|l| - 1]]), ids)]
  {
    hide RenamedRow;
  }

  /** What a table that was taken says about its rows: every one is there, and no two references met. */
  ghost predicate NotesKept(l: seq<Id>, m: map<Id, CreditNote>, table: map<Id, CreditNote>, ids: map<string, string>)
    requires forall id :: id in l ==> id in m
  {
    && (forall x :: x in l ==> Renamed(x, ids) in table && table[Renamed(x, ids)] == RenamedNote(m[x], ids))
    && (forall a, b :: a in l && b in l && a != b && m[a].companyId == m[b].companyId ==>
          RenameText(m[a].reference, ids) != RenameText(m[b].reference, ids))
  }

  lemma {:induction false} RenamedNoteKeys(i: CreditNote, ids: map<string, string>)
    ensures RenamedNote(i, ids).companyId == Renamed(i.companyId, ids) && RenamedNote(i, ids).reference == RenameText(i.reference, ids)
  {
  }

  /** The row taken last has none of the references taken before. */
  lemma {:induction false} NoteMeetsNone(l: seq<Id>, m: map<Id, CreditNote>, table: map<Id, CreditNote>, ids: map<string, string>, id: Id, a: Id)
    requires (forall x :: x in l ==> x in m) && id in m && NotesKept(l, m, table, ids)
    requires Renamed(id, ids) !in table && !NoteKeyTaken(table, RenamedNote(m[id], ids))
    requires a in l && m[a].companyId == m[id].companyId
    ensures RenameText(m[a].reference, ids) != RenameText(m[id].reference, ids)
  {
    hide Renamed, RenameText, NoteKeyTaken, RenamedNote;
    RenamedNoteKeys(m[a], ids);
    RenamedNoteKeys(m[id], ids);
    assert table[Renamed(a, ids)] == RenamedNote(m[a], ids);
    hide NotesKept;
    NoteNotTaken(table, RenamedNote(m[id], ids), Renamed(a, ids));
  }

  lemma {:induction false} NoteRowsThere(l: seq<Id>, m: map<Id, CreditNote>, table: map<Id, CreditNote>, ids: map<string, string>)
    requires l != [] && forall id :: id in l ==> id in m
    requires NotesKept(l[..|l| - 1], m, table, ids) && Renamed(l[|l| - 1], ids) !in table
    ensures var table' := table[Renamed(l[|l| - 1], ids) := RenamedNote(m[l[|l| - 1]], ids)];
            forall x :: x in l ==> Renamed(x, ids) in table' && table'[Renamed(x, ids)] == RenamedNote(m[x], ids)
  {
    hide Renamed, RenameText, RenamedNote;
    assert forall x :: x in l ==> x in l[..|l| - 1] || x == l[|l| - 1];
  }

  lemma {:induction false} NoteKeptNext(l: seq<Id>, m: map<Id, CreditNote>, table: map<Id, CreditNote>, ids: map<string, string>)
    requires l != [] && forall id :: id in l ==> id in m
    requires NotesKept(l[..|l| - 1], m, table, ids)
    requires var id := l[|l| - 1];
             Renamed(id, ids) !in table && !NoteKeyTaken(table, RenamedNote(m[id], ids))
    ensures NotesKept(l, m, table[Renamed(l[|l| - 1], ids) := RenamedNote(m[l[|l| - 1]], ids)], ids)
  {
    var n, id := |l| - 1, l[|l| - 1];
    assert forall x :: x in l ==> x in l[..n] || x == id;
    hide Renamed, RenameText, NoteKeyTaken, RenamedNote;
    NoteRowsThere(l, m, table, ids);
    forall a, b | a in l && b in l && a != b && m[a].companyId == m[b].companyId
      ensures RenameText(m[a].reference, ids) != RenameText(m[b].reference, ids)
    {
      if a == id {
        NoteMeetsNone(l[..n], m, table, ids, id, b);
      } else if b == id {
        NoteMeetsNone(l[..n], m, table, ids, id, a);
      }
    }
  }

  lemma {:induction false} NotesTaken(t: Store, l: seq<Id>, m: map<Id, CreditNote>, ids: map<string, string>)
    requires forall id :: id in l ==> id in m
    requires AddRows(t, RenamedRows(NoteRows(m, l), ids)).Ok?
    ensures NotesKept(l, m, AddRows(t, RenamedRows(NoteRows(m, l), ids)).value.notes, ids)
  {
    if l == [] {
      hide AddRows, RenamedRows;
    } else {
      hide *;
      var n := |l| - 1;
      assert l[n] in l && forall id :: id in l[..n] ==> id in l;
      NoteRowsSnoc(m, l, ids);
      AddRowsLast(t, RenamedRows(NoteRows(m, l[..n]), ids), RenamedRow(NoteRow(l[n], m[l[n]]), ids));
      NotesTaken(t, l[..n], m, ids);
      var v := AddRows(t, RenamedRows(NoteRows(m, l[..n]), ids)).value;
      NoteRowTaken(v, l[n], m[l[n]], ids);
      NoteKeptNext(l, m, v.notes, ids);
    }
  }

  /** Meeting references stop the table they are in. */
  lemma {:induction false} MeetingInvoicesRefused(u: Store, s: Store, l: Listing, ids: map<string, string>)
    requires ListsStore(l, s) && CanonicalStore(s) && Inv(s) && CanonicalValues(ids) && !InvoiceReferencesApart(s.invoices, ids)
    ensures RestoreTable(u, Invoices, Rename(Node(List, EncodeRows(InvoiceRows(s.invoices, l.invoices))), ids)).Err?
  {
    hide CanonicalStore, Inv, CanonicalValues, RestoreTable, AddRows, EncodeRows, Rename, RenamedRows, CleanRows, Lists, RenamedText,
         RenamedInvoice, Renamed, Distinct, InvoiceRows;
    Listed(s, l);
    InvoicesClean(s, l.invoices);
    InvoiceRowsTable(s.invoices, l.invoices);
    TableRestored(u, Invoices, InvoiceRows(s.invoices, l.invoices), ids);
    if AddRows(u, RenamedRows(InvoiceRows(s.invoices, l.invoices), ids)).Ok? {
      InvoicesTaken(u, l.invoices, s.invoices, ids);
    }
  }

  lemma {:induction false} MeetingQuotesRefused(u: Store, s: Store, l: Listing, ids: map<string, string>)
    requires ListsStore(l, s) && CanonicalStore(s) && Inv(s) && CanonicalValues(ids) && !QuoteReferencesApart(s.quotes, ids)
    ensures RestoreTable(u, Quotes, Rename(Node(List, EncodeRows(QuoteRows(s.quotes, l.quotes))), ids)).Err?
  {
    hide CanonicalStore, Inv, CanonicalValues, RestoreTable, AddRows, EncodeRows, Rename, RenamedRows, CleanRows, Lists, RenameText,
         RenamedQuote, Renamed, Distinct, QuoteRows;
    Listed(s, l);
    QuotesClean(s, l.quotes);
    QuoteRowsTable(s.quotes, l.quotes);
    TableRestored(u, Quotes, QuoteRows(s.quotes, l.quotes), ids);
    if AddRows(u, RenamedRows(QuoteRows(s.quotes, l.quotes), ids)).Ok? {
      QuotesTaken(u, l.quotes, s.quotes, ids);
    }
  }

  lemma {:induction false} MeetingNotesRefused(u: Store, s: Store, l: Listing, ids: map<string, string>)
    requires ListsStore(l, s) && CanonicalStore(s) && Inv(s) && CanonicalValues(ids) && !NoteReferencesApart(s.notes, ids)
    ensures RestoreTable(u, CreditNotes, Rename(Node(List, EncodeRows(NoteRows(s.notes, l.notes))), ids)).Err?
  {
    hide CanonicalStore, Inv, CanonicalValues, RestoreTable, AddRows, EncodeRows, Rename, RenamedRows, CleanRows, Lists, RenameText,
         RenamedNote, Renamed, Distinct, NoteRows;
    Listed(s, l);
    NotesClean(s, l.notes);
    NoteRowsTable(s.notes, l.notes);
    TableRestored(u, CreditNotes, NoteRows(s.notes, l.notes), ids);
    if AddRows(u, RenamedRows(NoteRows(s.notes, l.notes), ids)).Ok? {
      NotesTaken(u, l.notes, s.notes, ids);
    }
  }

  lemma {:induction false} MeetingRefused(t: Store, s: Store, l: Listing, ids: map<string, string>, organization: Json)
    requires ListsStore(l, s) && Restorable(t, s, l, ids) && !ReferencesApart(s, ids)
    ensures RestoreInto(t, RenamedPayload(Exported(s, l, organization), ids)).Err?
  {
    hide Inv, CanonicalStore, ScopesOk, Covers, CanonicalValues, RestoreTable, RestoreRest, Rename, WithCompanies, WithClients, WithInvoices,
         WithQuotes, WithNotes, WithPayments, EncodeRows, CompanyRows, ClientRows, InvoiceRows, QuoteRows, NoteRows, PaymentRows, AuditItems,
         SequenceItems, InvoiceReferencesApart, QuoteReferencesApart, NoteReferencesApart, Injective, Lists, Restorable;
    RestorableFacts(t, s, l, ids);
    CompaniesBack(t, s, l, ids);
    ClientsBack(t, s, l, ids);
    if !InvoiceReferencesApart(s.invoices, ids) {
      MeetingInvoicesRefused(WithClients(t, s, l, ids), s, l, ids);
    } else {
      InvoicesBack(t, s, l, ids);
      if !QuoteReferencesApart(s.quotes, ids) {
        MeetingQuotesRefused(WithInvoices(t, s, l, ids), s, l, ids);
      } else {
        QuotesBack(t, s, l, ids);
        MeetingNotesRefused(WithQuotes(t, s, l, ids), s, l, ids);
      }
    }
  }

  /** So it is exactly meeting references that make the restore of an export fail. */
  lemma {:induction false} RestoredIff(t: Store, s: Store, l: Listing, ids: map<string, string>, organization: Json)
    requires Restorable(t, s, l, ids)
    ensures RestoreInto(t, RenamedPayload(Exported(s, l, organization), ids)).Ok? <==> ReferencesApart(s, ids)
  {
    hide *;
    RestorableListing(t, s, l, ids);
    if ReferencesApart(s, ids) {
      RestoreOfExport(t, s, l, ids, organization);
    } else {
      MeetingRefused(t, s, l, ids, organization);
    }
  }

  lemma {:induction false} RestorableListing(t: Store, s: Store, l: Listing, ids: map<string, string>)
    requires Restorable(t, s, l, ids)
    ensures ListsStore(l, s)
  {
    hide ListsStore, Inv, ScopesOk, CanonicalStore, Covers;
  }

  lemma {:induction false} KeysCopied(s: Store, r: Store, ids: map<string, string>)
    requires CompaniesCopied(s.companies, r.companies, ids) && ClientsCopied(s.clients, r.clients, ids)
    requires InvoicesCopied(s.invoices, r.invoices, ids) && QuotesCopied(s.quotes, r.quotes, ids) && NotesCopied(s.notes, r.notes, ids)
    ensures r.companies.Keys == RenamedSet(s.companies.Keys, ids) && r.clients.Keys == RenamedSet(s.clients.Keys, ids)
    ensures r.invoices.Keys == RenamedSet(s.invoices.Keys, ids) && r.quotes.Keys == RenamedSet(s.quotes.Keys, ids)
    ensures r.notes.Keys == RenamedSet(s.notes.Keys, ids)
  {
    hide RenamedSet;
  }

  /** So the restored ledger satisfies every invariant of the source, and its series stand where the
      source's stood. */
  lemma {:induction false} RestoredIsSound(t: Store, s: Store, l: Listing, ids: map<string, string>, organization: Json, r: Store)
    requires Restorable(t, s, l, ids) && ReferencesApart(s, ids) && RestoreInto(t, RenamedPayload(Exported(s, l, organization), ids)) == Ok(r)
    ensures Inv(r)
    ensures forall c :: c in s.companies ==> Counter(r, Renamed(c, ids), INVOICE_SERIES) == Counter(s, c, INVOICE_SERIES)
    ensures forall c :: c in s.companies ==> Counter(r, Renamed(c, ids), CREDIT_NOTE_SERIES) == Counter(s, c, CREDIT_NOTE_SERIES)
    ensures forall c :: c in s.companies ==> Counter(r, Renamed(c, ids), QUOTE_SERIES) == Counter(s, c, QUOTE_SERIES)
  {
    hide RestoreInto, RenamedPayload, Exported, Inv, CanonicalStore, CompaniesCopied, ClientsCopied, InvoicesCopied, QuotesCopied, NotesCopied,
         PaymentsCopied, CountersCopied, IdsOk, Covers, ListsStore, ScopesOk, Renamed;
    RestoreOfExport(t, s, l, ids, organization);
    CopyKeepsInv(s, r, ids);
    SeriesFromCounters(s, r, ids, INVOICE_SERIES);
    SeriesFromCounters(s, r, ids, CREDIT_NOTE_SERIES);
    SeriesFromCounters(s, r, ids, QUOTE_SERIES);
  }

  /** Whatever is issued next takes the source's counter plus one. */
  lemma {:induction false} NumberingContinues(t: Store, s: Store, l: Listing, ids: map<string, string>, organization: Json, r: Store, c: Id,
                                              id: Id, day: Option<Date>, due: Option<Date>, party: seq<Finding>, after: Store)
    requires Restorable(t, s, l, ids) && ReferencesApart(s, ids) && RestoreInto(t, RenamedPayload(Exported(s, l, organization), ids)) == Ok(r)
    requires c in s.companies && id in r.invoices && r.invoices[id].companyId == Renamed(c, ids)
    requires IssueInvoice(r, id, day, due, party) == Ok(after)
    ensures id in after.invoices && after.invoices[id].sequence == Some(Counter(s, c, INVOICE_SERIES) + 1)
  {
    hide RestoreInto, RenamedPayload, Exported, Inv, Restorable, IssueInvoice, Renamed;
    RestoredIsSound(t, s, l, ids, organization, r);
    IssueTakesTheNextNumber(r, id, day, due, party);
    IssuedStays(r, id, day, due, party, after);
  }

  lemma {:induction false} IssuedStays(r: Store, id: Id, day: Option<Date>, due: Option<Date>, party: seq<Finding>, after: Store)
    requires id in r.invoices && IssueInvoice(r, id, day, due, party) == Ok(after)
    ensures id in after.invoices
  {
    hide IssueFindings, DisplayReference, InvoiceNumbers, InvoiceKeyTaken, IssuedInvoice;
  }
}
