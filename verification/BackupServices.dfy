// core/services/backup_service.py as it runs: export reads one snapshot, restore walks the payload and
// replays it table by table in one unit of work.
module BackupServices {
  import opened Common
  import opened Grouping
  import opened Store
  import opened LedgerInvariant
  import opened LedgerKeys
  import opened BackupIds
  import opened BackupCodec
  import opened LedgerCopy
  import opened Backup
  import opened Services

  function TableIn(p: Payload, table: Table): Json {
    match table
    case Companies => p.companies
    case Clients => p.clients
    case Invoices => p.invoices
    case Quotes => p.quotes
    case CreditNotes => p.creditNotes
    case Payments => p.payments
  }

  /** `_RESTORE_ORDER`: a row is added after everything it refers to. */
  const RESTORE_ORDER := [Companies, Clients, Invoices, Quotes, CreditNotes, Payments]

  function RestoreTables(s: Store, p: Payload, order: seq<Table>): Result<Store> {
    if order == [] then Ok(s)
    else match RestoreTables(s, p, order[..|order| - 1])
      case Err(e) => Err(e)
      case Ok(t) => RestoreTable(t, order[|order| - 1], TableIn(p, order[|order| - 1]))
  }

  lemma {:induction false} TablesSnoc(s: Store, p: Payload, order: seq<Table>, table: Table)
    ensures RestoreTables(s, p, order + [table])
         == match RestoreTables(s, p, order) case Err(e) => Err(e) case Ok(t) => RestoreTable(t, table, TableIn(p, table))
  {
    assert (order + [table])[..|order|] == order;
  }

  /** The table-driven loop is the chain of the six tables. */
  lemma {:induction false} InOrder(s: Store, p: Payload)
    requires s.companies == map[]
    ensures RestoreInto(s, p)
         == match RestoreTables(s, p, RESTORE_ORDER) case Err(e) => Err(e) case Ok(t) => RestoreRest(t, p)
  {
    hide RestoreTable, RestoreRest;
    TablesSnoc(s, p, [], Companies);
    TablesSnoc(s, p, [Companies], Clients);
    TablesSnoc(s, p, [Companies, Clients], Invoices);
    TablesSnoc(s, p, [Companies, Clients, Invoices], Quotes);
    TablesSnoc(s, p, [Companies, Clients, Invoices, Quotes], CreditNotes);
    TablesSnoc(s, p, [Companies, Clients, Invoices, Quotes, CreditNotes], Payments);
    assert [] + [Companies] == [Companies];
    assert [Companies] + [Clients] == [Companies, Clients];
    assert [Companies, Clients] + [Invoices] == [Companies, Clients, Invoices];
    assert [Companies, Clients, Invoices] + [Quotes] == [Companies, Clients, Invoices, Quotes];
    assert [Companies, Clients, Invoices, Quotes] + [CreditNotes] == [Companies, Clients, Invoices, Quotes, CreditNotes];
    assert [Companies, Clients, Invoices, Quotes, CreditNotes] + [Payments] == RESTORE_ORDER;
  }

  lemma {:induction false} StopsEarly(s: Store, p: Payload, k: nat)
    requires k <= |RESTORE_ORDER| && RestoreTables(s, p, RESTORE_ORDER[..k]).Err?
    ensures RestoreTables(s, p, RESTORE_ORDER) == RestoreTables(s, p, RESTORE_ORDER[..k])
    decreases |RESTORE_ORDER| - k
  {
    hide RestoreTable;
    if k < |RESTORE_ORDER| {
      TablesSnoc(s, p, RESTORE_ORDER[..k], RESTORE_ORDER[k]);
      assert RESTORE_ORDER[..k + 1] == RESTORE_ORDER[..k] + [RESTORE_ORDER[k]];
      StopsEarly(s, p, k + 1);
    } else {
      assert RESTORE_ORDER[..k] == RESTORE_ORDER;
    }
  }

  lemma {:induction false} RowsStopEarly(s: Store, rows: seq<Row>, k: nat)
    requires k <= |rows| && AddRows(s, rows[..k]).Err?
    ensures AddRows(s, rows) == AddRows(s, rows[..k])
    decreases |rows| - k
  {
    hide AddRow;
    if k < |rows| {
      assert rows[..k + 1][..k] == rows[..k];
      RowsStopEarly(s, rows, k + 1);
    } else {
      assert rows[..k] == rows;
    }
  }

  lemma {:induction false} CountersStopEarly(c: map<Scope, nat>, items: seq<Json>, k: nat)
    requires k <= |items| && RestoreCounters(c, items[..k]).Err?
    ensures RestoreCounters(c, items) == RestoreCounters(c, items[..k])
    decreases |items| - k
  {
    hide DecodeSequence;
    if k < |items| {
      assert items[..k + 1][..k] == items[..k];
      CountersStopEarly(c, items, k + 1);
    } else {
      assert items[..k] == items;
    }
  }

  datatype RestoreReport = RestoreReport(rows: map<Table, nat>, sequences: nat, auditEntries: nat)

  /** The report counts what the file held: every row, counter and entry of it was replayed. */
  ghost predicate Counted(r: RestoreReport, p: Payload) {
    && (forall t :: t in RESTORE_ORDER ==> t in r.rows && IsList(TableIn(p, t)) && r.rows[t] == |TableIn(p, t).items|)
    && IsList(p.sequences) && r.sequences == |p.sequences.items|
    && IsList(p.auditLog) && r.auditEntries == |p.auditLog.items|
  }

  /** The renaming a walk over the payload leaves behind. */
  ghost predicate Renames(ids: map<string, string>, p: Payload, uuids: seq<string>) {
    && Injective(ids)
    && ids.Keys == KeysInAll(PayloadParts(p))
    && forall k :: k in ids ==> ids[k] in uuids
  }

  /** `_remap_ids(payload, {})`: the whole payload under one map that starts empty. */
  method WalkPayload(p: Payload, uuids: seq<string>) returns (q: Payload, ghost ids: map<string, string>)
    requires Distinct(uuids) && (forall id :: id in uuids ==> Canonical(id)) && MentionsAll(PayloadParts(p)) <= |uuids|
    ensures Renames(ids, p, uuids) && q == RenamedPayload(p, ids)
  {
    hide Canonical, Mentions, KeysIn, Rename, RenameAll, MentionsAll, KeysInAll, PayloadParts, Renames, Filed, Injective, Fresh, Distinct,
         RenamedPayload;
    var walk := new IdMap(uuids);
    ghost var before := walk.supply;
    var parts := PayloadParts(p);
    NodeFacts(parts, map[]);
    var renamed := walk.RemapIds(Node(List, parts));
    NodeFacts(parts, walk.ids);
    PartsBack(p, walk.ids);
    MapAfterWalk(walk);
    WalkRenames(walk.ids, p, uuids, walk.supply);
    ids := walk.ids;
    var v := renamed.items;
    q := Payload(p.format, p.schemaVersion, v[0], v[1], v[2], v[3], v[4], v[5], v[6], v[7], v[8]);
  }

  class BackupService {
    const uow: UnitOfWork

    constructor (uow: UnitOfWork)
      ensures this.uow == uow
    {
      this.uow := uow;
    }

    method Export(l: Listing, organization: Json) returns (p: Payload)
      requires uow.Valid() && ListsStore(l, uow.committed)
      modifies uow
      ensures uow.Valid()
      ensures p == Exported(old(uow.committed), l, organization)
      ensures uow.committed
           == old(uow.committed).(audit := old(uow.committed).audit + [AuditEntry(ExportBackup, "backup", None)])
    {
      hide Inv, EncodeRows, CompanyRows, ClientRows, InvoiceRows, QuoteRows, NoteRows, PaymentRows, AuditItems, SequenceItems, Newest;
      uow.Begin();
      p := Exported(uow.staged, l, organization);
      uow.staged := uow.staged.(audit := uow.staged.audit + [AuditEntry(ExportBackup, "backup", None)]);
      AuditOnly(uow.committed, uow.staged);
      uow.Commit();
    }

    /** `for model in ...: repository.add(model)`. */
    method AddAll(rows: seq<Row>) returns (r: Result<nat>)
      modifies uow`staged
      ensures match r
        case Ok(n) => n == |rows| && AddRows(old(uow.staged), rows) == Ok(uow.staged)
        case Err(e) => AddRows(old(uow.staged), rows) == Err(e)
    {
      hide AddRow;
      ghost var start := uow.staged;
      for i := 0 to |rows|
        invariant AddRows(start, rows[..i]) == Ok(uow.staged)
      {
        assert rows[..i + 1][..i] == rows[..i];
        var added := AddRow(uow.staged, rows[i]);
        if added.Err? {
          RowsStopEarly(start, rows, i + 1);
          return Err(added.error);
        }
        uow.staged := added.value;
      }
      assert rows[..|rows|] == rows;
      r := Ok(|rows|);
    }

    method AddTable(table: Table, j: Json) returns (r: Result<nat>)
      modifies uow`staged
      ensures match r
        case Ok(n) => RestoreTable(old(uow.staged), table, j) == Ok(uow.staged) && IsList(j) && n == |j.items|
        case Err(e) => RestoreTable(old(uow.staged), table, j) == Err(e)
    {
      hide AddRows, Decode;
      if !IsList(j) {
        return Err(BusinessRule);
      }
      var rows := DecodeRows(table, j.items);
      if rows.None? {
        return Err(BusinessRule);
      }
      DecodedLength(table, j.items);
      r := AddAll(rows.value);
    }

    /** The loop over `_RESTORE_ORDER`. */
    method AddTables(p: Payload) returns (r: Result<map<Table, nat>>)
      modifies uow`staged
      ensures match r
        case Ok(counts) => RestoreTables(old(uow.staged), p, RESTORE_ORDER) == Ok(uow.staged)
          && forall t :: t in RESTORE_ORDER ==> t in counts && IsList(TableIn(p, t)) && counts[t] == |TableIn(p, t).items|
        case Err(e) => RestoreTables(old(uow.staged), p, RESTORE_ORDER) == Err(e)
    {
      hide RestoreTable;
      ghost var start := uow.staged;
      var counts: map<Table, nat> := map[];
      for k := 0 to |RESTORE_ORDER|
        invariant RestoreTables(start, p, RESTORE_ORDER[..k]) == Ok(uow.staged)
        invariant forall t :: t in RESTORE_ORDER[..k] ==> t in counts && IsList(TableIn(p, t)) && counts[t] == |TableIn(p, t).items|
      {
        var table := RESTORE_ORDER[k];
        TablesSnoc(start, p, RESTORE_ORDER[..k], table);
        assert RESTORE_ORDER[..k + 1] == RESTORE_ORDER[..k] + [table];
        var n := AddTable(table, TableIn(p, table));
        if n.Err? {
          StopsEarly(start, p, k + 1);
          return Err(n.error);
        }
        counts := counts[table := n.value];
      }
      assert RESTORE_ORDER[..|RESTORE_ORDER|] == RESTORE_ORDER;
      r := Ok(counts);
    }

    /** `for raw in sequences: uow.sequences.restore_value(...)`. */
    method AddSequences(items: seq<Json>) returns (r: Result<nat>)
      modifies uow`staged
      ensures match r
        case Ok(n) => n == |items| && RestoreCounters(old(uow.staged).counters, items) == Ok(uow.staged.counters)
          && uow.staged == old(uow.staged).(counters := uow.staged.counters)
        case Err(e) => RestoreCounters(old(uow.staged).counters, items) == Err(e)
    {
      hide DecodeSequence;
      ghost var start := uow.staged;
      for i := 0 to |items|
        invariant RestoreCounters(start.counters, items[..i]) == Ok(uow.staged.counters)
        invariant uow.staged == start.(counters := uow.staged.counters)
      {
        assert items[..i + 1][..i] == items[..i];
        var entry := DecodeSequence(items[i]);
        if entry.None? {
          CountersStopEarly(start.counters, items, i + 1);
          return Err(BusinessRule);
        }
        uow.RestoreValue(entry.value.scope.companyId, entry.value.scope.name, entry.value.value);
      }
      assert items[..|items|] == items;
      r := Ok(|items|);
    }

    /** Everything after the walk, in one unit of work. */
    method Replay(p: Payload) returns (r: Result<RestoreReport>)
      modifies uow
      ensures match r
        case Ok(report) => RestoreInto(old(uow.committed), p) == Ok(uow.committed) && Counted(report, p)
        case Err(e) => RestoreInto(old(uow.committed), p) == Err(e) && uow.committed == old(uow.committed)
    {
      hide RestoreTables, RestoreCounters, DecodeAudits;
      uow.Begin();
      if uow.staged.companies != map[] {
        uow.Rollback();
        return Err(BusinessRule);
      }
      InOrder(uow.staged, p);
      hide RestoreInto;
      var counts := AddTables(p);
      if counts.Err? {
        uow.Rollback();
        return Err(counts.error);
      }
      if !IsList(p.sequences) {
        uow.Rollback();
        return Err(BusinessRule);
      }
      var sequences := AddSequences(p.sequences.items);
      if sequences.Err? {
        uow.Rollback();
        return Err(sequences.error);
      }
      if !IsList(p.auditLog) {
        uow.Rollback();
        return Err(BusinessRule);
      }
      var entries := DecodeAudits(p.auditLog.items);
      if entries.None? {
        uow.Rollback();
        return Err(BusinessRule);
      }
      uow.staged := uow.staged.(audit := uow.staged.audit + entries.value + [AuditEntry(AuditAction.Restore, "backup", None)]);
      uow.Commit();
      r := Ok(RestoreReport(counts.value, sequences.value, |entries.value|));
    }

    /** `restore`. On any refusal the organization is as it was; otherwise the file's content is in it,
        under identifiers that uuid4 returned and that one map hands out consistently. */
    method Restore(p: Payload, uuids: seq<string>) returns (r: Result<RestoreReport>, ghost ids: map<string, string>)
      requires Distinct(uuids) && (forall id :: id in uuids ==> Canonical(id)) && MentionsAll(PayloadParts(p)) <= |uuids|
      modifies uow
      ensures p.format != FORMAT || !Supported(p.schemaVersion) ==> r == Err(BusinessRule) && uow.committed == old(uow.committed)
      ensures p.format == FORMAT && Supported(p.schemaVersion) ==> Renames(ids, p, uuids)
      ensures p.format == FORMAT && Supported(p.schemaVersion) ==>
        match r
        case Ok(report) => RestoreInto(old(uow.committed), RenamedPayload(p, ids)) == Ok(uow.committed)
          && Counted(report, RenamedPayload(p, ids))
        case Err(e) => RestoreInto(old(uow.committed), RenamedPayload(p, ids)) == Err(e) && uow.committed == old(uow.committed)
    {
      ids := map[];
      if p.format != FORMAT {
        return Err(BusinessRule), ids;
      }
      if !Supported(p.schemaVersion) {
        return Err(BusinessRule), ids;
      }
      hide *;
      var q;
      q, ids := WalkPayload(p, uuids);
      r := Replay(q);
    }
  }

  lemma {:induction false} NodeFacts(items: seq<Json>, ids: map<string, string>)
    ensures KeysIn(Node(List, items)) == KeysInAll(items) && Mentions(Node(List, items)) == MentionsAll(items)
    ensures Rename(Node(List, items), ids) == Node(List, RenameAll(items, ids))
  {
  }

  lemma {:induction false} PartsBack(p: Payload, ids: map<string, string>)
    ensures |RenameAll(PayloadParts(p), ids)| == 9
    ensures var v := RenameAll(PayloadParts(p), ids);
            Payload(p.format, p.schemaVersion, v[0], v[1], v[2], v[3], v[4], v[5], v[6], v[7], v[8]) == RenamedPayload(p, ids)
  {
    PartsRenamed(p, ids);
    hide Rename, RenameAll;
  }

  lemma {:induction false} MapAfterWalk(walk: IdMap)
    requires walk.Valid()
    ensures Injective(walk.ids)
  {
    hide Injective, Fresh;
  }

  /** A walk that started with nothing filed. */
  lemma {:induction false} WalkRenames(ids: map<string, string>, p: Payload, uuids: seq<string>, rest: seq<string>)
    requires Injective(ids)
    requires Filed(map[], uuids, ids, rest, KeysInAll(PayloadParts(p)), MentionsAll(PayloadParts(p)))
    ensures Renames(ids, p, uuids)
  {
    hide Injective, KeysInAll, MentionsAll, PayloadParts, Extends;
  }

  lemma {:induction false} PartsRenamed(p: Payload, ids: map<string, string>)
    ensures RenameAll(PayloadParts(p), ids) == PayloadParts(RenamedPayload(p, ids))
  {
    hide Rename;
  }

  lemma {:induction false} AuditOnly(s: Store, s': Store)
    requires Inv(s) && s' == s.(audit := s'.audit)
    ensures Inv(s')
  {
    hide ClientsOk, InvoicesOk, QuotesOk, PaymentsOk, NotesOk;
  }

  lemma {:induction false} DecodedLength(table: Table, items: seq<Json>)
    ensures DecodeRows(table, items).Some? ==> |DecodeRows(table, items).value| == |items|
  {
    hide Decode;
    if items != [] {
      DecodedLength(table, items[..|items| - 1]);
    }
  }

  // ------------------------------------------------------------------ end to end

  lemma {:induction false} MentionedInside(items: seq<Json>, i: nat)
    requires i < |items|
    ensures KeysIn(items[i]) <= KeysInAll(items)
  {
    hide KeysIn;
    if i < |items| - 1 {
      MentionedInside(items[..|items| - 1], i);
    }
  }

  lemma {:induction false} IdMentioned(id: Id)
    requires Canonical(id)
    ensures KeysIn(Str(id)) == {id}
  {
    RenameId(id, map[]);
  }

  /** Every row mentions its own identifier. */
  lemma {:induction false} RowMentionsId(row: Row)
    requires CanonicalRow(row) && !row.PaymentRow?
    ensures row.id in KeysIn(Encode(row))
  {
    hide Canonical, CanonicalOpt, CanonicalLines, FiledUnder, EncodeLines, EncodeNoteLines, EncodeDiscount, KeysIn, KeysInAll;
    IdMentioned(row.id);
    match row
    case CompanyRow(id, c) => FirstMentioned(EncodeCompany(id, c), id);
    case ClientRow(id, c) => FirstMentioned(EncodeClient(id, c), id);
    case InvoiceRow(id, i) => HeadMentioned(EncodeInvoice(id, i), InvoiceHead(id, i));
    case QuoteRow(id, q) => HeadMentioned(EncodeQuote(id, q), QuoteHead(id, q));
    case NoteRow(id, n) =>
      HeadMentioned(EncodeNote(id, n), Head(id, n.companyId, n.clientId, Some(n.reference), Some(n.sequence), n.issueDate, None));
  }

  lemma {:induction false} FirstMentioned(items: seq<Json>, id: Id)
    requires items != [] && items[0] == Str(id) && KeysIn(Str(id)) == {id}
    ensures id in KeysIn(Node(Dict, items))
  {
    MentionedInside(items, 0);
    assert id in KeysIn(items[0]);
    hide KeysInAll;
  }

  lemma {:induction false} HeadMentioned(items: seq<Json>, h: Head)
    requires items != [] && items[0] == EncodeHead(h) && KeysIn(Str(h.id)) == {h.id}
    ensures h.id in KeysIn(Node(Dict, items))
  {
    FirstMentioned(EncodeHead(h).items, h.id);
    MentionedInside(items, 0);
    assert h.id in KeysIn(items[0]);
    hide KeysInAll;
  }

  /** The identifiers of a table are mentioned in its dump. */
  lemma {:induction false} TableMentions(rows: seq<Row>, i: nat)
    requires i < |rows| && CanonicalRow(rows[i]) && !rows[i].PaymentRow?
    ensures rows[i].id in KeysIn(Node(List, EncodeRows(rows)))
  {
    hide CanonicalRow, Encode;
    RowMentionsId(rows[i]);
    MentionedInside(EncodeRows(rows), i);
    assert rows[i].id in KeysIn(EncodeRows(rows)[i]);
    hide KeysInAll;
  }

  lemma {:induction false} PartMentioned(p: Payload, i: nat)
    requires i < 9
    ensures KeysIn(PayloadParts(p)[i]) <= KeysInAll(PayloadParts(p))
  {
    MentionedInside(PayloadParts(p), i);
  }

  lemma {:induction false} ListedAt(l: seq<Id>, keys: set<Id>, id: Id) returns (i: nat)
    requires Lists(l, keys) && id in keys
    ensures i < |l| && l[i] == id
  {
    assert id in l;
    i :| 0 <= i < |l| && l[i] == id;
  }

  lemma {:induction false} CompaniesMentioned(s: Store, l: Listing, organization: Json, id: Id)
    requires CanonicalStore(s) && ListsStore(l, s) && id in s.companies
    ensures id in KeysInAll(PayloadParts(Exported(s, l, organization)))
  {
    hide CanonicalRow, ValidRow, KeysIn, KeysInAll, EncodeRows;
    var rows := CompanyRows(s.companies, l.companies);
    var i := ListedAt(l.companies, s.companies.Keys, id);
    assert rows[i] == CompanyRow(id, s.companies[id]);
    TableMentions(rows, i);
    PartMentioned(Exported(s, l, organization), 1);
  }

  lemma {:induction false} ClientsMentioned(s: Store, l: Listing, organization: Json, id: Id)
    requires CanonicalStore(s) && ListsStore(l, s) && id in s.clients
    ensures id in KeysInAll(PayloadParts(Exported(s, l, organization)))
  {
    hide CanonicalRow, ValidRow, KeysIn, KeysInAll, EncodeRows;
    var rows := ClientRows(s.clients, l.clients);
    var i := ListedAt(l.clients, s.clients.Keys, id);
    assert rows[i] == ClientRow(id, s.clients[id]);
    TableMentions(rows, i);
    PartMentioned(Exported(s, l, organization), 2);
  }

  lemma {:induction false} InvoicesMentioned(s: Store, l: Listing, organization: Json, id: Id)
    requires CanonicalStore(s) && ListsStore(l, s) && id in s.invoices
    ensures id in KeysInAll(PayloadParts(Exported(s, l, organization)))
  {
    hide CanonicalRow, ValidRow, KeysIn, KeysInAll, EncodeRows;
    var rows := InvoiceRows(s.invoices, l.invoices);
    var i := ListedAt(l.invoices, s.invoices.Keys, id);
    assert rows[i] == InvoiceRow(id, s.invoices[id]);
    TableMentions(rows, i);
    PartMentioned(Exported(s, l, organization), 3);
  }

  lemma {:induction false} QuotesMentioned(s: Store, l: Listing, organization: Json, id: Id)
    requires CanonicalStore(s) && ListsStore(l, s) && id in s.quotes
    ensures id in KeysInAll(PayloadParts(Exported(s, l, organization)))
  {
    hide CanonicalRow, ValidRow, KeysIn, KeysInAll, EncodeRows;
    var rows := QuoteRows(s.quotes, l.quotes);
    var i := ListedAt(l.quotes, s.quotes.Keys, id);
    assert rows[i] == QuoteRow(id, s.quotes[id]);
    TableMentions(rows, i);
    PartMentioned(Exported(s, l, organization), 4);
  }

  lemma {:induction false} NotesMentioned(s: Store, l: Listing, organization: Json, id: Id)
    requires CanonicalStore(s) && ListsStore(l, s) && id in s.notes
    ensures id in KeysInAll(PayloadParts(Exported(s, l, organization)))
  {
    hide CanonicalRow, ValidRow, KeysIn, KeysInAll, EncodeRows;
    var rows := NoteRows(s.notes, l.notes);
    var i := ListedAt(l.notes, s.notes.Keys, id);
    assert rows[i] == NoteRow(id, s.notes[id]);
    TableMentions(rows, i);
    PartMentioned(Exported(s, l, organization), 5);
  }

  lemma {:induction false} CanonicalIds(s: Store, id: Id)
    requires CanonicalStore(s) && (id in s.companies || id in s.clients || id in s.invoices || id in s.quotes || id in s.notes)
    ensures Canonical(id)
  {
    hide Canonical, ValidRow, CanonicalOpt, CanonicalLines, FiledUnder;
  }

  /** The walk over an export renames every row of it, and confuses no two. */
  lemma {:induction false} WalkCovers(s: Store, l: Listing, organization: Json, ids: map<string, string>, uuids: seq<string>)
    requires CanonicalStore(s) && ListsStore(l, s)
    requires Renames(ids, Exported(s, l, organization), uuids) && forall id :: id in uuids ==> Canonical(id)
    ensures Covers(ids, s)
  {
    hide CanonicalStore, ListsStore, Exported, Canonical, KeysInAll, PayloadParts;
    forall id | id in s.companies.Keys + s.clients.Keys + s.invoices.Keys + s.quotes.Keys + s.notes.Keys
      ensures id in ids.Keys && Canonical(id)
    {
      CanonicalIds(s, id);
      if id in s.companies {
        CompaniesMentioned(s, l, organization, id);
      } else if id in s.clients {
        ClientsMentioned(s, l, organization, id);
      } else if id in s.invoices {
        InvoicesMentioned(s, l, organization, id);
      } else if id in s.quotes {
        QuotesMentioned(s, l, organization, id);
      } else {
        NotesMentioned(s, l, organization, id);
      }
    }
  }

  /** Export, then restore elsewhere: whatever identifiers uuid4 comes up with, restoring the backup of a
      sound ledger into a sound organization without companies succeeds, unless two references of a company
      meet under the renaming, and yields the same ledger under new identifiers, which satisfies the ledger
      invariant. */
  lemma {:induction false} DisasterRecovery(s: Store, l: Listing, organization: Json, t: Store, ids: map<string, string>, uuids: seq<string>)
    requires Inv(s) && KeysOk(s) && CanonicalStore(s) && ListsStore(l, s) && ReferencesApart(s, ids)
    requires Inv(t) && ScopesOk(t) && t.companies == map[]
    requires Renames(ids, Exported(s, l, organization), uuids) && forall id :: id in uuids ==> Canonical(id)
    ensures var r := RestoreInto(t, RenamedPayload(Exported(s, l, organization), ids));
            r.Ok? && Copied(s, r.value, ids) && Inv(r.value) && KeysOk(r.value)
  {
    hide Inv, CanonicalStore, ListsStore, ScopesOk, RestoreInto, RenamedPayload, Exported, Copied, Renames, Covers, Canonical, ReferencesApart,
         InvoiceReferencesUnique, NoteReferencesUnique, QuoteReferencesUnique;
    WalkCovers(s, l, organization, ids, uuids);
    RestoreOfExport(t, s, l, ids, organization);
    var r := RestoreInto(t, RenamedPayload(Exported(s, l, organization), ids)).value;
    RestoredIsSound(t, s, l, ids, organization, r);
    CopyKeepsKeys(s, r, ids);
  }
}
