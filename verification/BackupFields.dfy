// What an export and a restore leave of a ledger (core/services/backup_service.py:143-261), in the fields of its
// rows: dates, money, numbers and statuses travel as they are, identifiers under their new names.
module BackupFields {
  import opened Common
  import opened Lines
  import opened Text
  import opened Store
  import opened Transactions
  import opened LedgerHistory
  import opened LedgerKeys
  import opened BackupIds
  import opened BackupCodec
  import opened LedgerCopy
  import opened Backup
  import opened LedgerEffects

  /** A backup just exported is one that a restore accepts; so are those of the two earlier versions, and no others. */
  lemma {:induction false} OwnBackupAccepted(s: Store, l: Listing, organization: Json)
    requires ListsStore(l, s)
    ensures var p := Exported(s, l, organization);
            p.format == FORMAT == "billgen-backup" && p.schemaVersion == 3 && p.organization == organization
    ensures forall version :: Supported(version) <==> 1 <= version <= 3
  {
    hide EncodeRows, CompanyRows, ClientRows, InvoiceRows, QuoteRows, NoteRows, PaymentRows, AuditItems, SequenceItems, Newest;
  }

  /** A restore needs an organization without companies and a file whose collections are all there. */
  lemma {:induction false} RestoreNeeds(s: Store, p: Payload)
    ensures RestoreInto(s, p).Ok? ==>
      && s.companies == map[]
      && IsList(p.companies) && IsList(p.clients) && IsList(p.invoices) && IsList(p.quotes) && IsList(p.creditNotes)
      && IsList(p.payments) && IsList(p.sequences) && IsList(p.auditLog)
    ensures s.companies != map[] ==> RestoreInto(s, p) == Err(BusinessRule)
  {
    hide RestoreTable, RestoreCounters, DecodeAudits, IsList;
    forall t: Store, table: Table, j: Json ensures RestoreTable(t, table, j).Ok? ==> IsList(j) {
      TableIsList(t, table, j);
    }
  }

  lemma {:induction false} TableIsList(s: Store, table: Table, j: Json)
    ensures RestoreTable(s, table, j).Ok? ==> IsList(j)
  {
    hide AddRows, DecodeRows;
  }

  // ------------------------------------------------------------------ any file at all

  /** Every row refers to rows that are there. */
  ghost predicate Referential(s: Store) {
    && SalesRefer(s.companies, s.clients, s.invoices)
    && OffersRefer(s.companies, s.clients, s.quotes)
    && (forall id :: id in s.notes ==>
          s.notes[id].companyId in s.companies && s.notes[id].clientId in s.clients && s.notes[id].invoiceId in s.invoices)
    && (forall p :: p in s.payments ==> p.invoiceId in s.invoices)
  }

  ghost predicate SalesRefer(companies: map<Id, Company>, clients: map<Id, Client>, invoices: map<Id, Invoice>) {
    && (forall id :: id in clients ==> clients[id].companyId in companies)
    && (forall id :: id in invoices ==> invoices[id].companyId in companies && invoices[id].clientId in clients)
  }

  ghost predicate OffersRefer(companies: map<Id, Company>, clients: map<Id, Client>, quotes: map<Id, Quote>) {
    forall id :: id in quotes ==> quotes[id].companyId in companies && quotes[id].clientId in clients
  }

  /** No two documents of a company share a reference or a number. */
  ghost predicate KeysUnique(s: Store) {
    && InvoiceReferencesUnique(s.invoices) && NumberedOnce(s.invoices)
    && NoteReferencesUnique(s.notes) && NotesNumberedOnce(s.notes)
    && QuoteReferencesUnique(s.quotes)
  }

  lemma {:induction false} CompaniesMore(s: Store, id: Id, c: Company)
    requires SalesRefer(s.companies, s.clients, s.invoices) && OffersRefer(s.companies, s.clients, s.quotes)
    ensures SalesRefer(s.companies[id := c], s.clients, s.invoices) && OffersRefer(s.companies[id := c], s.clients, s.quotes)
  {
  }

  lemma {:induction false} ClientsMore(s: Store, id: Id, c: Client)
    requires SalesRefer(s.companies, s.clients, s.invoices) && OffersRefer(s.companies, s.clients, s.quotes) && c.companyId in s.companies
    ensures SalesRefer(s.companies, s.clients[id := c], s.invoices) && OffersRefer(s.companies, s.clients[id := c], s.quotes)
  {
  }

  lemma {:induction false} RowKeepsReferential(s: Store, row: Row)
    requires Referential(s) && AddRow(s, row).Ok?
    ensures Referential(AddRow(s, row).value)
  {
    hide InvoiceKeyTaken, QuoteKeyTaken, NoteKeyTaken, SalesRefer, OffersRefer;
    match row
    case CompanyRow(id, c) => CompaniesMore(s, id, c);
    case ClientRow(id, c) => ClientsMore(s, id, c);
    case InvoiceRow(id, i) => SalesMore(s, id, i);
    case QuoteRow(id, q) => OffersMore(s, id, q);
    case NoteRow(_, _) =>
    case PaymentRow(_) =>
  }

  lemma {:induction false} SalesMore(s: Store, id: Id, i: Invoice)
    requires SalesRefer(s.companies, s.clients, s.invoices) && i.companyId in s.companies && i.clientId in s.clients
    ensures SalesRefer(s.companies, s.clients, s.invoices[id := i])
  {
  }

  lemma {:induction false} OffersMore(s: Store, id: Id, q: Quote)
    requires OffersRefer(s.companies, s.clients, s.quotes) && q.companyId in s.companies && q.clientId in s.clients
    ensures OffersRefer(s.companies, s.clients, s.quotes[id := q])
  {
  }

  lemma {:induction false} RowKeepsKeysUnique(s: Store, row: Row)
    requires KeysUnique(s) && AddRow(s, row).Ok?
    ensures KeysUnique(AddRow(s, row).value)
  {
    hide InvoiceReferencesUnique, NumberedOnce, NoteReferencesUnique, NotesNumberedOnce, QuoteReferencesUnique,
         InvoiceKeyTaken, QuoteKeyTaken, NoteKeyTaken;
    match row
    case InvoiceRow(id, i) => NewInvoiceKeys(s.invoices, id, i);
    case QuoteRow(id, q) => NewQuoteKeys(s.quotes, id, q);
    case NoteRow(id, n) => NewNoteKeys(s.notes, id, n);
    case _ =>
  }

  lemma {:induction false} NewInvoiceKeys(m: map<Id, Invoice>, id: Id, i: Invoice)
    requires id !in m && !InvoiceKeyTaken(m, id, i)
    ensures InvoiceReferencesUnique(m) ==> InvoiceReferencesUnique(m[id := i])
    ensures NumberedOnce(m) ==> NumberedOnce(m[id := i])
  {
  }

  lemma {:induction false} NewQuoteKeys(m: map<Id, Quote>, id: Id, q: Quote)
    requires id !in m && !QuoteKeyTaken(m, q)
    ensures QuoteReferencesUnique(m) ==> QuoteReferencesUnique(m[id := q])
  {
  }

  lemma {:induction false} NewNoteKeys(m: map<Id, CreditNote>, id: Id, n: CreditNote)
    requires id !in m && !NoteKeyTaken(m, n)
    ensures NoteReferencesUnique(m) ==> NoteReferencesUnique(m[id := n])
    ensures NotesNumberedOnce(m) ==> NotesNumberedOnce(m[id := n])
  {
  }

  lemma {:induction false} RowsKeepOrder(s: Store, rows: seq<Row>)
    requires Referential(s) && KeysUnique(s) && AddRows(s, rows).Ok?
    ensures Referential(AddRows(s, rows).value) && KeysUnique(AddRows(s, rows).value)
  {
    if rows != [] {
      RowsKeepOrder(s, rows[..|rows| - 1]);
      RowKeepsReferential(AddRows(s, rows[..|rows| - 1]).value, rows[|rows| - 1]);
      RowKeepsKeysUnique(AddRows(s, rows[..|rows| - 1]).value, rows[|rows| - 1]);
      hide AddRow, Referential, KeysUnique;
    }
  }

  lemma {:induction false} TableKeepsOrder(s: Store, table: Table, j: Json)
    requires Referential(s) && KeysUnique(s) && RestoreTable(s, table, j).Ok?
    ensures Referential(RestoreTable(s, table, j).value) && KeysUnique(RestoreTable(s, table, j).value)
  {
    hide AddRows, DecodeRows, Referential, KeysUnique;
    RowsKeepOrder(s, DecodeRows(table, j.items).value);
  }

  lemma {:induction false} RestKeepsOrder(s: Store, p: Payload)
    requires Referential(s) && KeysUnique(s) && RestoreRest(s, p).Ok?
    ensures Referential(RestoreRest(s, p).value) && KeysUnique(RestoreRest(s, p).value)
  {
    hide RestoreCounters, DecodeAudits, InvoiceReferencesUnique, NumberedOnce, NoteReferencesUnique, NotesNumberedOnce, QuoteReferencesUnique;
  }

  /** Whatever file is restored, a ledger in which every row refers to rows that are there and no two documents share a
      key comes out as one. */
  lemma {:induction false} AnyRestoreKeepsOrder(s: Store, p: Payload)
    requires Referential(s) && KeysUnique(s) && RestoreInto(s, p).Ok?
    ensures Referential(RestoreInto(s, p).value) && KeysUnique(RestoreInto(s, p).value)
  {
    hide RestoreTable, RestoreRest, Referential, KeysUnique;
    var s1 := RestoreTable(s, Companies, p.companies).value;
    TableKeepsOrder(s, Companies, p.companies);
    var s2 := RestoreTable(s1, Clients, p.clients).value;
    TableKeepsOrder(s1, Clients, p.clients);
    var s3 := RestoreTable(s2, Invoices, p.invoices).value;
    TableKeepsOrder(s2, Invoices, p.invoices);
    var s4 := RestoreTable(s3, Quotes, p.quotes).value;
    TableKeepsOrder(s3, Quotes, p.quotes);
    var s5 := RestoreTable(s4, CreditNotes, p.creditNotes).value;
    TableKeepsOrder(s4, CreditNotes, p.creditNotes);
    var s6 := RestoreTable(s5, Payments, p.payments).value;
    TableKeepsOrder(s5, Payments, p.payments);
    RestKeepsOrder(s6, p);
  }

  // ------------------------------------------------------------------ which texts are renamed

  /** A text is an identifier, or a monthly counter's scope around one, with or without a line break after it. */
  ghost predicate IsName(s: string, id: string, tail: string) {
    || (UuidShape(id) && (s == id || s == id + "\n"))
    || IsScope(s, id, tail)
  }

  ghost predicate IsScope(s: string, id: string, tail: string) {
    && |id| == 36 && HexOrDash(id) && tail != "" && '\n' !in tail
    && (s == "bucket:" + id + ":" + tail || s == "bucket:" + id + ":" + tail + "\n")
  }

  lemma {:induction false} IdIsFiled(s: string, id: string)
    requires UuidShape(id) && (s == id || s == id + "\n")
    ensures FiledUnder(s) == Some(Lower(s)) && forall to :: Rewritten(s, to) == to
  {
    hide UuidShape, BucketGroups;
    assert |id| == 36 by { ThirtySix(id); }
    if s != id {
      assert s[..36] == id;
    }
  }

  lemma {:induction false} ThirtySix(id: string)
    requires UuidShape(id)
    ensures |id| == 36
  {
  }

  lemma {:induction false} ScopeIsFiled(s: string, id: string, tail: string)
    requires IsScope(s, id, tail)
    ensures FiledUnder(s) == Some(Lower(id)) && forall to :: Rewritten(s, to) == "bucket:" + to + ":" + tail
  {
    var t := "bucket:" + id + ":" + tail;
    assert t[..7] == "bucket:" && t[7..43] == id && t[43..] == ":" + tail && t[43] == ':';
    assert WithoutFinalNewline(s) == t;
    assert !MatchesUuid(s);
    hide MatchesUuid, HexOrDash;
    assert BucketGroups(s) == Some((id, ":" + tail));
    forall to ensures Rewritten(s, to) == "bucket:" + to + ":" + tail {
      assert "bucket:" + to + (":" + tail) == "bucket:" + to + ":" + tail;
    }
  }

  lemma {:induction false} FiledIsName(s: string)
    requires FiledUnder(s).Some?
    ensures exists id, tail :: IsName(s, id, tail)
  {
    if MatchesUuid(s) {
      if UuidShape(s) {
        assert IsName(s, s, "");
      } else {
        assert s == s[..36] + "\n";
        assert IsName(s, s[..36], "");
      }
    } else {
      var t := WithoutFinalNewline(s);
      assert t == "bucket:" + t[7..43] + ":" + t[44..];
      assert s == t || s == t + "\n";
      assert IsScope(s, t[7..43], t[44..]);
      assert IsName(s, t[7..43], t[44..]);
    }
  }

  /** Exactly those texts are renamed, upper and lower case alike. A scope is renamed as its identifier is; an
      identifier with a line break after it is one of its own. */
  lemma {:induction false} NamedIff(s: string)
    ensures FiledUnder(s).Some? <==> exists id, tail :: IsName(s, id, tail)
    ensures forall id, tail :: IsName(s, id, tail) ==> FiledUnder(s) == Some(Lower(if IsScope(s, id, tail) then id else s))
  {
    hide *;
    forall id, tail | IsName(s, id, tail) ensures FiledUnder(s) == Some(Lower(if IsScope(s, id, tail) then id else s)) {
      NameIsFiled(s, id, tail);
    }
    if FiledUnder(s).Some? {
      FiledIsName(s);
    }
  }

  lemma {:induction false} NameIsFiled(s: string, id: string, tail: string)
    requires IsName(s, id, tail)
    ensures FiledUnder(s) == Some(Lower(if IsScope(s, id, tail) then id else s))
  {
    hide FiledUnder, IsScope, UuidShape;
    if IsScope(s, id, tail) {
      ScopeIsFiled(s, id, tail);
    } else {
      IdIsFiled(s, id);
    }
  }

  // ------------------------------------------------------------------ the audit log

  /** The new name of an identifier. */
  ghost predicate NewName(from: Option<Id>, to: Option<Id>, ids: map<string, string>) {
    && (from.None? <==> to.None?)
    && (from.Some? && from.value in ids ==> to == Some(ids[from.value]))
    && (from.Some? && from.value !in ids ==> to == from)
  }

  lemma {:induction false} NewNames(from: Option<Id>, ids: map<string, string>)
    ensures NewName(from, RenamedOpt(from, ids), ids)
  {
  }

  /** The newest million entries of an audit log, in their order, under new names. */
  ghost predicate NewestEntries(audit: seq<AuditEntry>, copied: seq<AuditEntry>, ids: map<string, string>) {
    var n := |copied|;
    && n == (if |audit| <= 1_000_000 then |audit| else 1_000_000)
    && forall i :: 0 <= i < n ==>
         copied[i].action == audit[|audit| - n + i].action && NewName(audit[|audit| - n + i].targetId, copied[i].targetId, ids)
  }

  /** The audit log after a restore: what was there, the newest entries of the source, and the one that says a restore
      happened. */
  lemma {:induction false} RestoredAudit(t: Store, s: Store, l: Listing, ids: map<string, string>, organization: Json, r: Store)
    requires Restorable(t, s, l, ids) && ReferencesApart(s, ids) && RestoreInto(t, RenamedPayload(Exported(s, l, organization), ids)) == Ok(r)
    ensures exists copied ::
      r.audit == t.audit + copied + [AuditEntry(Restore, "backup", None)] && NewestEntries(s.audit, copied, ids)
  {
    hide *;
    RestoreOfExport(t, s, l, ids, organization);
    NewestCopied(s.audit, ids);
    var copied := RenamedAudits(Newest(s.audit), ids);
    TheLastEntry();
    assert r.audit == t.audit + copied + [AuditEntry(Restore, "backup", None)] && NewestEntries(s.audit, copied, ids);
  }

  lemma {:induction false} TheLastEntry()
    ensures RESTORED == AuditEntry(Restore, "backup", None)
  {
  }

  lemma {:induction false} NewestCopied(audit: seq<AuditEntry>, ids: map<string, string>)
    ensures NewestEntries(audit, RenamedAudits(Newest(audit), ids), ids)
  {
    var n := if |audit| <= 1_000_000 then |audit| else 1_000_000;
    assert |Newest(audit)| == n && forall i :: 0 <= i < n ==> Newest(audit)[i] == audit[|audit| - n + i];
    hide Newest, NewName, RenameText;
    forall i | 0 <= i < n ensures NewName(audit[|audit| - n + i].targetId, RenamedAudits(Newest(audit), ids)[i].targetId, ids) {
      NewNames(audit[|audit| - n + i].targetId, ids);
    }
  }

  // ------------------------------------------------------------------ the invoices

  /** A line sells the same: texts and identifiers apart, nothing about it changes. */
  ghost predicate SellsTheSame(a: InvoiceLine, b: InvoiceLine) {
    && b.lineNumber == a.lineNumber && b.quantity == a.quantity && b.unitPrice == a.unitPrice
    && b.supplyKind == a.supplyKind && b.category == a.category && b.rate == a.rate
    && (b.discount.None? <==> a.discount.None?)
    && (a.discount.Some? ==> b.discount.value.kind == a.discount.value.kind && b.discount.value.amount == a.discount.value.amount)
  }

  /** A restored invoice: the same document for the same parties. */
  ghost predicate SameInvoice(a: Invoice, b: Invoice, ids: map<string, string>) {
    && NewName(Some(a.companyId), Some(b.companyId), ids) && NewName(Some(a.clientId), Some(b.clientId), ids)
    && NewName(a.voidedBy, b.voidedBy, ids)
    && b.sequence == a.sequence && (b.reference.None? <==> a.reference.None?)
    && b.issueDate == a.issueDate && b.dueDate == a.dueDate && b.currency == a.currency
    && b.status == a.status && b.voidedAt == a.voidedAt
    && b.subtotal == a.subtotal && b.totalDiscount == a.totalDiscount && b.totalVat == a.totalVat && b.totalTtc == a.totalTtc
    && |b.lines| == |a.lines| && (forall i :: 0 <= i < |a.lines| ==> SellsTheSame(a.lines[i], b.lines[i]))
  }

  lemma {:induction false} RenamedSellsTheSame(a: InvoiceLine, ids: map<string, string>)
    ensures SellsTheSame(a, RenamedLine(a, ids))
  {
    hide RenameText, RenamedText, RenamedOpt;
  }

  lemma {:induction false} RenamedSame(a: Invoice, ids: map<string, string>)
    ensures SameInvoice(a, RenamedInvoice(a, ids), ids)
  {
    hide RenameText, RenamedText, RenamedDiscount, RenamedLine, NewName, SellsTheSame;
    NewNames(Some(a.companyId), ids);
    NewNames(Some(a.clientId), ids);
    NewNames(a.voidedBy, ids);
    TextOrNot(a.reference, ids);
    forall i | 0 <= i < |a.lines| ensures SellsTheSame(a.lines[i], RenamedLines(a.lines, ids)[i]) {
      RenamedSellsTheSame(a.lines[i], ids);
    }
  }

  lemma {:induction false} TextOrNot(o: Option<string>, ids: map<string, string>)
    ensures RenamedText(o, ids).None? <==> o.None?
  {
    hide RenameText;
  }

  /** After a restore every invoice is there under its new name, the same document with as much still to be paid on
      it; and there is no other. */
  lemma {:induction false} RestoredInvoices(t: Store, s: Store, l: Listing, ids: map<string, string>, organization: Json, r: Store)
    requires Restorable(t, s, l, ids) && ReferencesApart(s, ids) && RestoreInto(t, RenamedPayload(Exported(s, l, organization), ids)) == Ok(r)
    ensures forall id :: id in s.invoices ==>
      id in ids && ids[id] in r.invoices && SameInvoice(s.invoices[id], r.invoices[ids[id]], ids)
      && Outstanding(r, ids[id]) == Outstanding(s, id)
    ensures forall y :: y in r.invoices ==> exists id :: id in s.invoices && id in ids && ids[id] == y
  {
    hide *;
    RestoreOfExport(t, s, l, ids, organization);
    RestorableFacts(t, s, l, ids);
    forall id | id in s.invoices
      ensures id in ids && ids[id] in r.invoices && SameInvoice(s.invoices[id], r.invoices[ids[id]], ids)
      ensures Outstanding(r, ids[id]) == Outstanding(s, id)
    {
      InvoiceCopied(s, r, ids, id);
      RenamedSame(s.invoices[id], ids);
      SameOutstanding(s, r, id, ids[id], ids);
    }
    forall y | y in r.invoices ensures exists id :: id in s.invoices && id in ids && ids[id] == y {
      InvoiceFrom(s, r, ids, y);
    }
  }

  lemma {:induction false} InvoiceCopied(s: Store, r: Store, ids: map<string, string>, id: Id)
    requires Copied(s, r, ids) && id in s.invoices && id in ids
    ensures ids[id] in r.invoices && r.invoices[ids[id]] == RenamedInvoice(s.invoices[id], ids)
    ensures PaidOn(r.payments, ids[id]) == PaidOn(s.payments, id)
  {
    hide RenamedInvoice, PaidOn, CompaniesCopied, ClientsCopied, QuotesCopied, NotesCopied, CountersCopied, RenamedSet, RenamedPayments;
    assert Renamed(id, ids) == ids[id];
  }

  lemma {:induction false} InvoiceFrom(s: Store, r: Store, ids: map<string, string>, y: Id)
    requires Copied(s, r, ids) && s.invoices.Keys <= ids.Keys && y in r.invoices
    ensures exists id :: id in s.invoices && id in ids && ids[id] == y
  {
    hide RenamedInvoice, PaidOn, CompaniesCopied, ClientsCopied, QuotesCopied, NotesCopied, CountersCopied, PaymentsCopied;
    var id :| id in s.invoices && Renamed(id, ids) == y;
  }

  lemma {:induction false} SameOutstanding(s: Store, r: Store, id: Id, y: Id, ids: map<string, string>)
    requires id in s.invoices && y in r.invoices && SameInvoice(s.invoices[id], r.invoices[y], ids)
    requires PaidOn(r.payments, y) == PaidOn(s.payments, id)
    ensures Outstanding(r, y) == Outstanding(s, id)
  {
    hide PaidOn, SellsTheSame, NewName;
  }
}
