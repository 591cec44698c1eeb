// core/services/import_service.py: importing a legacy backup. Companies, clients and products are
// matched by name within their scope; what exists already, or repeats in the file, is skipped.
module LegacyImport {
  import opened Common
  import opened Text

  // ------------------------------------------------------------------ the legacy file

  datatype LegacyClient = LegacyClient(name: string)

  /** In the legacy application a service's name is stored as its description. `price` is None when
      what is there is not a number. */
  datatype LegacyProduct = LegacyProduct(description: string, name: string, price: Option<real>)

  datatype LegacyCompany = LegacyCompany(name: string, clients: seq<LegacyClient>, products: seq<LegacyProduct>)

  const NAME_LENGTH := 200

  function Truncated(s: string): string {
    if |s| <= NAME_LENGTH then s else s[..NAME_LENGTH]
  }

  /** `_clean(name)[:200]`; None where the mapper raises MappingError. */
  function StoredName(raw: string): Option<string> {
    var name := Strip(raw);
    if name == "" then None else Some(Truncated(name))
  }

  function MapClient(c: LegacyClient): Option<string> {
    StoredName(c.name)
  }

  function MapProduct(p: LegacyProduct): Option<string> {
    var name := if Strip(p.description) != "" then StoredName(p.description) else StoredName(p.name);
    if name.None? || p.price.None? || p.price.value < 0.0 then None else name
  }

  function MapClients(cs: seq<LegacyClient>): (r: seq<Option<string>>)
    ensures |r| == |cs|
  {
    seq(|cs|, i requires 0 <= i < |cs| => MapClient(cs[i]))
  }

  function MapProducts(ps: seq<LegacyProduct>): (r: seq<Option<string>>)
    ensures |r| == |ps|
  {
    seq(|ps|, i requires 0 <= i < |ps| => MapProduct(ps[i]))
  }

  /** `name.strip().lower()`. */
  function KeyOf(name: string): string {
    Lower(Strip(name))
  }

  /** The keys of the rows that map. */
  function KeysOf(names: seq<Option<string>>): set<string> {
    if names == [] then {}
    else KeysOf(names[..|names| - 1]) + if names[|names| - 1].Some? then {KeyOf(names[|names| - 1].value)} else {}
  }

  /** Which rows map: a client with a name; a product with a price that is not negative and with a description or else
      a name. What is stored is that text without the white space around it, the first two hundred characters of it. */
  lemma {:induction false} MappedIff(c: LegacyClient, p: LegacyProduct)
    ensures MapClient(c).Some? <==> !AllSpace(c.name)
    ensures MapClient(c).Some? ==> MapClient(c).value <= Strip(c.name)
    ensures MapClient(c).Some? ==> |MapClient(c).value| == if |Strip(c.name)| <= 200 then |Strip(c.name)| else 200
    ensures MapProduct(p).Some? <==> p.price.Some? && p.price.value >= 0.0 && !(AllSpace(p.description) && AllSpace(p.name))
    ensures MapProduct(p).Some? ==>
      MapProduct(p).value <= if AllSpace(p.description) then Strip(p.name) else Strip(p.description)
  {
    StripBlank(c.name);
    StripBlank(p.name);
    StripBlank(p.description);
    hide Strip, AllSpace;
  }

  // ------------------------------------------------------------------ the rows of the organization

  datatype Company = Company(id: string, name: string)
  datatype Child = Child(companyId: string, name: string)

  /** Tables in insertion order, which is how the repositories list them. */
  datatype Tables = Tables(companies: seq<Company>, clients: seq<Child>, products: seq<Child>)

  function StoredKeys(rows: seq<Child>, companyId: string): set<string> {
    if rows == [] then {}
    else
      StoredKeys(rows[..|rows| - 1], companyId)
      + if rows[|rows| - 1].companyId == companyId then {KeyOf(rows[|rows| - 1].name)} else {}
  }

  /** `{c.name.strip().lower(): c for c in uow.companies.list()}`: a later company wins. */
  function ByName(companies: seq<Company>): map<string, string> {
    if companies == [] then map[]
    else ByName(companies[..|companies| - 1])[KeyOf(companies[|companies| - 1].name) := companies[|companies| - 1].id]
  }

  // ------------------------------------------------------------------ the report

  /** `created + skipped + failed` is the number of source rows. */
  datatype Counts = Counts(created: nat, skipped: nat, failed: nat)

  const NO_COUNTS := Counts(0, 0, 0)

  function Plus(a: Counts, b: Counts): Counts {
    Counts(a.created + b.created, a.skipped + b.skipped, a.failed + b.failed)
  }

  datatype Report = Report(companies: Counts, clients: Counts, products: Counts)

  // ------------------------------------------------------------------ one company's children

  /** What `_import_children` does with one list: the names it adds, in order, and the counts. */
  function NewNames(seen: set<string>, names: seq<Option<string>>): seq<string> {
    if names == [] then []
    else
      var before, last := NewNames(seen, names[..|names| - 1]), names[|names| - 1];
      if last.Some? && KeyOf(last.value) !in seen + KeysOf(names[..|names| - 1]) then before + [last.value] else before
  }

  function CountsOf(seen: set<string>, names: seq<Option<string>>): Counts {
    if names == [] then NO_COUNTS
    else
      var before, last := CountsOf(seen, names[..|names| - 1]), names[|names| - 1];
      if last.None? then before.(failed := before.failed + 1)
      else if KeyOf(last.value) in seen + KeysOf(names[..|names| - 1]) then before.(skipped := before.skipped + 1)
      else before.(created := before.created + 1)
  }

  function ChildrenNamed(companyId: string, names: seq<string>): (r: seq<Child>)
    ensures |r| == |names|
  {
    seq(|names|, i requires 0 <= i < |names| => Child(companyId, names[i]))
  }

  method ImportChildren(companyId: string, stored: seq<Child>, names: seq<Option<string>>, dryRun: bool)
    returns (rows: seq<Child>, counts: Counts)
    ensures counts == CountsOf(StoredKeys(stored, companyId), names)
    ensures rows == if dryRun then stored else stored + ChildrenNamed(companyId, NewNames(StoredKeys(stored, companyId), names))
  {
    hide StoredKeys, KeyOf;
    ghost var existing := StoredKeys(stored, companyId);
    var seen := StoredKeys(stored, companyId);
    rows, counts := stored, NO_COUNTS;
    assert stored + ChildrenNamed(companyId, []) == stored;
    for i := 0 to |names|
      invariant seen == existing + KeysOf(names[..i])
      invariant counts == CountsOf(existing, names[..i])
      invariant rows == if dryRun then stored else stored + ChildrenNamed(companyId, NewNames(existing, names[..i]))
    {
      assert names[..i + 1][..i] == names[..i];
      if names[i].None? {
        counts := counts.(failed := counts.failed + 1);
      } else {
        var name := names[i].value;
        if KeyOf(name) in seen {
          counts := counts.(skipped := counts.skipped + 1);
        } else {
          seen := seen + {KeyOf(name)};
          counts := counts.(created := counts.created + 1);
          if !dryRun {
            ghost var before := NewNames(existing, names[..i]);
            assert ChildrenNamed(companyId, before + [name]) == ChildrenNamed(companyId, before) + [Child(companyId, name)];
            rows := rows + [Child(companyId, name)];
          }
        }
      }
    }
    assert names[..|names|] == names;
  }

  lemma {:induction false} CountsAddUp(seen: set<string>, names: seq<Option<string>>)
    ensures var c := CountsOf(seen, names); c.created + c.skipped + c.failed == |names| && c.created == |NewNames(seen, names)|
  {
    hide KeyOf, KeysOf;
    if names != [] {
      CountsAddUp(seen, names[..|names| - 1]);
    }
  }

  /** Created is the number of different new names. */
  lemma {:induction false} CreatedIsNewKeys(seen: set<string>, names: seq<Option<string>>)
    ensures CountsOf(seen, names).created == |KeysOf(names) - seen|
  {
    hide KeyOf;
    if names != [] {
      var n := |names| - 1;
      CreatedIsNewKeys(seen, names[..n]);
      var before := KeysOf(names[..n]) - seen;
      if names[n].Some? && KeyOf(names[n].value) !in seen + KeysOf(names[..n]) {
        assert KeysOf(names) - seen == before + {KeyOf(names[n].value)};
      } else {
        assert KeysOf(names) - seen == before;
      }
    }
  }

  // ------------------------------------------------------------------ the run

  datatype State = State(tables: Tables, byName: map<string, string>, report: Report)

  /** Everything one company of the file does. `uuid` is the identifier uuid4 gives a new company. */
  function AfterCompany(st: State, legacy: LegacyCompany, uuid: string, dryRun: bool): State {
    var name := StoredName(legacy.name);
    if name.None? then st.(report := st.report.(companies := Plus(st.report.companies, Counts(0, 0, 1))))
    else
      var key := KeyOf(name.value);
      if key in st.byName then
        AfterChildren(st.(report := st.report.(companies := Plus(st.report.companies, Counts(0, 1, 0)))), legacy, st.byName[key], dryRun)
      else
        AfterChildren(
          State(if dryRun then st.tables else st.tables.(companies := st.tables.companies + [Company(uuid, name.value)]),
                st.byName[key := uuid], st.report.(companies := Plus(st.report.companies, Counts(1, 0, 0)))),
          legacy, uuid, dryRun)
  }

  function AfterChildren(st: State, legacy: LegacyCompany, id: string, dryRun: bool): State {
    var cs, ps := MapClients(legacy.clients), MapProducts(legacy.products);
    var seenClients, seenProducts := StoredKeys(st.tables.clients, id), StoredKeys(st.tables.products, id);
    st.(tables := if dryRun then st.tables
                  else st.tables.(clients := st.tables.clients + ChildrenNamed(id, NewNames(seenClients, cs)),
                                  products := st.tables.products + ChildrenNamed(id, NewNames(seenProducts, ps))),
        report := st.report.(clients := Plus(st.report.clients, CountsOf(seenClients, cs)),
                             products := Plus(st.report.products, CountsOf(seenProducts, ps))))
  }

  function Start(tables: Tables): State {
    State(tables, ByName(tables.companies), Report(NO_COUNTS, NO_COUNTS, NO_COUNTS))
  }

  /** The run over the first companies of the file. */
  function After(tables: Tables, file: seq<LegacyCompany>, uuids: seq<string>, dryRun: bool): State
    requires |uuids| == |file|
  {
    if file == [] then Start(tables)
    else
      var n := |file| - 1;
      AfterCompany(After(tables, file[..n], uuids[..n], dryRun), file[n], uuids[n], dryRun)
  }

  /** `_run`. */
  method Run(tables: Tables, file: seq<LegacyCompany>, uuids: seq<string>, dryRun: bool) returns (after: Tables, report: Report)
    requires |uuids| == |file|
    ensures after == After(tables, file, uuids, dryRun).tables && report == After(tables, file, uuids, dryRun).report
  {
    hide StoredKeys, KeyOf, CountsOf, NewNames, StoredName, MapClients, MapProducts, ByName;
    after := tables;
    var byName := ByName(tables.companies);
    var companies, clients, products := NO_COUNTS, NO_COUNTS, NO_COUNTS;
    for i := 0 to |file|
      invariant After(tables, file[..i], uuids[..i], dryRun) == State(after, byName, Report(companies, clients, products))
    {
      assert file[..i + 1][..i] == file[..i] && uuids[..i + 1][..i] == uuids[..i];
      var name := StoredName(file[i].name);
      if name.None? {
        companies := Plus(companies, Counts(0, 0, 1));
      } else {
        var key, target := KeyOf(name.value), uuids[i];
        if key in byName {
          companies := Plus(companies, Counts(0, 1, 0));
          target := byName[key];
        } else {
          companies := Plus(companies, Counts(1, 0, 0));
          byName := byName[key := uuids[i]];
          if !dryRun {
            after := after.(companies := after.companies + [Company(uuids[i], name.value)]);
          }
        }
        var c, p;
        var clientRows, productRows;
        clientRows, c := ImportChildren(target, after.clients, MapClients(file[i].clients), dryRun);
        productRows, p := ImportChildren(target, after.products, MapProducts(file[i].products), dryRun);
        after := after.(clients := clientRows, products := productRows);
        clients, products := Plus(clients, c), Plus(products, p);
      }
    }
    assert file[..|file|] == file && uuids[..|uuids|] == uuids;
    report := Report(companies, clients, products);
  }

  // ------------------------------------------------------------------ one list of children per company

  /** The children one company of the file brings, and the company they go to. */
  datatype Block = Block(target: string, names: seq<Option<string>>)

  function BlockNames(legacy: LegacyCompany, clients: bool): seq<Option<string>> {
    if clients then MapClients(legacy.clients) else MapProducts(legacy.products)
  }

  /** The blocks of a file; `byName` says which company each name stands for. */
  function Blocks(byName: map<string, string>, file: seq<LegacyCompany>, clients: bool): seq<Block> {
    if file == [] then []
    else
      var before, last := Blocks(byName, file[..|file| - 1], clients), file[|file| - 1];
      var name := StoredName(last.name);
      if name.Some? && KeyOf(name.value) in byName then before + [Block(byName[KeyOf(name.value)], BlockNames(last, clients))]
      else before
  }

  /** The rows once the blocks are committed one after the other. */
  function RowsAfter(stored: seq<Child>, blocks: seq<Block>): seq<Child> {
    if blocks == [] then stored
    else
      var before, b := RowsAfter(stored, blocks[..|blocks| - 1]), blocks[|blocks| - 1];
      before + ChildrenNamed(b.target, NewNames(StoredKeys(before, b.target), b.names))
  }

  function CommitCounts(stored: seq<Child>, blocks: seq<Block>): Counts {
    if blocks == [] then NO_COUNTS
    else
      var b := blocks[|blocks| - 1];
      Plus(CommitCounts(stored, blocks[..|blocks| - 1]),
           CountsOf(StoredKeys(RowsAfter(stored, blocks[..|blocks| - 1]), b.target), b.names))
  }

  /** A dry run sees, for every block, only what was stored before the run. */
  function PreviewCounts(stored: seq<Child>, blocks: seq<Block>): Counts {
    if blocks == [] then NO_COUNTS
    else
      var b := blocks[|blocks| - 1];
      Plus(PreviewCounts(stored, blocks[..|blocks| - 1]), CountsOf(StoredKeys(stored, b.target), b.names))
  }

  ghost predicate Extends(a: map<string, string>, b: map<string, string>) {
    forall k :: k in a ==> k in b && b[k] == a[k]
  }

  lemma {:induction false} NamesGrow(st: State, legacy: LegacyCompany, uuid: string, dryRun: bool)
    ensures Extends(st.byName, AfterCompany(st, legacy, uuid, dryRun).byName)
    ensures StoredName(legacy.name).Some? ==> KeyOf(StoredName(legacy.name).value) in AfterCompany(st, legacy, uuid, dryRun).byName
  {
    hide StoredName, KeyOf, StoredKeys, NewNames, CountsOf, MapClients, MapProducts;
  }

  /** The run, seen as two lists of blocks. */
  ghost predicate IsBlockRun(st: State, tables: Tables, byName: map<string, string>, file: seq<LegacyCompany>, dryRun: bool) {
    var cs, ps := Blocks(byName, file, true), Blocks(byName, file, false);
    if dryRun then
      st.tables == tables && st.report.clients == PreviewCounts(tables.clients, cs) && st.report.products == PreviewCounts(tables.products, ps)
    else
      && st.tables.clients == RowsAfter(tables.clients, cs) && st.tables.products == RowsAfter(tables.products, ps)
      && st.report.clients == CommitCounts(tables.clients, cs) && st.report.products == CommitCounts(tables.products, ps)
  }

  lemma {:induction false} BlockStep(st: State, tables: Tables, byName: map<string, string>, file: seq<LegacyCompany>, legacy: LegacyCompany,
                                     uuid: string, dryRun: bool)
    requires IsBlockRun(st, tables, byName, file, dryRun)
    requires Extends(AfterCompany(st, legacy, uuid, dryRun).byName, byName)
    ensures IsBlockRun(AfterCompany(st, legacy, uuid, dryRun), tables, byName, file + [legacy], dryRun)
  {
    NamesGrow(st, legacy, uuid, dryRun);
    BlocksSnoc(byName, file, legacy, true);
    BlocksSnoc(byName, file, legacy, false);
    hide StoredName, KeyOf, StoredKeys, NewNames, CountsOf, MapClients, MapProducts, Blocks;
    var name := StoredName(legacy.name);
    if name.Some? {
      var target := byName[KeyOf(name.value)];
      RunSnoc(tables.clients, Blocks(byName, file, true), Block(target, MapClients(legacy.clients)));
      RunSnoc(tables.products, Blocks(byName, file, false), Block(target, MapProducts(legacy.products)));
      hide RowsAfter, CommitCounts, PreviewCounts;
    }
  }

  lemma {:induction false} BlocksSnoc(byName: map<string, string>, file: seq<LegacyCompany>, legacy: LegacyCompany, clients: bool)
    ensures var name := StoredName(legacy.name);
            Blocks(byName, file + [legacy], clients) ==
              if name.Some? && KeyOf(name.value) in byName
              then Blocks(byName, file, clients) + [Block(byName[KeyOf(name.value)], BlockNames(legacy, clients))]
              else Blocks(byName, file, clients)
  {
    assert (file + [legacy])[..|file|] == file;
  }

  lemma {:induction false} RunSnoc(stored: seq<Child>, blocks: seq<Block>, b: Block)
    ensures var before := RowsAfter(stored, blocks);
            && RowsAfter(stored, blocks + [b]) == before + ChildrenNamed(b.target, NewNames(StoredKeys(before, b.target), b.names))
            && CommitCounts(stored, blocks + [b]) == Plus(CommitCounts(stored, blocks), CountsOf(StoredKeys(before, b.target), b.names))
            && PreviewCounts(stored, blocks + [b]) == Plus(PreviewCounts(stored, blocks), CountsOf(StoredKeys(stored, b.target), b.names))
  {
    assert (blocks + [b])[..|blocks|] == blocks;
    hide StoredKeys, NewNames, CountsOf;
  }

  lemma {:induction false} NothingRun(tables: Tables, byName: map<string, string>, dryRun: bool)
    ensures IsBlockRun(Start(tables), tables, byName, [], dryRun)
  {
  }

  lemma {:induction false} RunIsBlocks(tables: Tables, file: seq<LegacyCompany>, uuids: seq<string>, dryRun: bool, byName: map<string, string>)
    requires |uuids| == |file| && Extends(After(tables, file, uuids, dryRun).byName, byName)
    ensures IsBlockRun(After(tables, file, uuids, dryRun), tables, byName, file, dryRun)
  {
    hide AfterCompany, IsBlockRun, ByName;
    if file == [] {
      NothingRun(tables, byName, dryRun);
    } else {
      var n := |file| - 1;
      NamesGrow(After(tables, file[..n], uuids[..n], dryRun), file[n], uuids[n], dryRun);
      RunIsBlocks(tables, file[..n], uuids[..n], dryRun, byName);
      BlockStep(After(tables, file[..n], uuids[..n], dryRun), tables, byName, file[..n], file[n], uuids[n], dryRun);
      assert file == file[..n] + [file[n]];
    }
  }

  /** A dry run resolves names and counts companies exactly like a commit. */
  lemma {:induction false} SameCompanies(tables: Tables, file: seq<LegacyCompany>, uuids: seq<string>)
    requires |uuids| == |file|
    ensures After(tables, file, uuids, true).byName == After(tables, file, uuids, false).byName
    ensures After(tables, file, uuids, true).report.companies == After(tables, file, uuids, false).report.companies
  {
    hide StoredName, KeyOf, StoredKeys, NewNames, CountsOf, MapClients, MapProducts, ByName;
    if file != [] {
      SameCompanies(tables, file[..|file| - 1], uuids[..|file| - 1]);
    }
  }

  // ------------------------------------------------------------------ when the preview is right

  /** What the earlier blocks bring to the same company. */
  function EarlierKeys(blocks: seq<Block>, id: string): set<string> {
    if blocks == [] then {}
    else
      EarlierKeys(blocks[..|blocks| - 1], id)
      + if blocks[|blocks| - 1].target == id then KeysOf(blocks[|blocks| - 1].names) else {}
  }

  /** Names of the last block that are new to the database but not to the file. */
  function RepeatedKeys(stored: seq<Child>, earlier: seq<Block>, b: Block): set<string> {
    (KeysOf(b.names) - StoredKeys(stored, b.target)) * EarlierKeys(earlier, b.target)
  }

  function Repeats(stored: seq<Child>, blocks: seq<Block>): nat {
    if blocks == [] then 0
    else
      Repeats(stored, blocks[..|blocks| - 1])
      + |RepeatedKeys(stored, blocks[..|blocks| - 1], blocks[|blocks| - 1])|
  }

  lemma {:induction false} StoredSnoc(rows: seq<Child>, row: Child, id: string)
    ensures StoredKeys(rows + [row], id) == StoredKeys(rows, id) + if row.companyId == id then {KeyOf(row.name)} else {}
  {
    assert (rows + [row])[..|rows|] == rows;
  }

  /** After a list is imported, its keys are stored under its company and nothing changes elsewhere. */
  lemma {:induction false} StoredAfter(rows: seq<Child>, target: string, names: seq<Option<string>>, id: string)
    ensures StoredKeys(rows + ChildrenNamed(target, NewNames(StoredKeys(rows, target), names)), id)
         == StoredKeys(rows, id) + if id == target then KeysOf(names) else {}
  {
    hide KeyOf;
    var seen := StoredKeys(rows, target);
    if names == [] {
      assert rows + ChildrenNamed(target, []) == rows;
    } else {
      var n := |names| - 1;
      StoredAfter(rows, target, names[..n], id);
      var before := NewNames(seen, names[..n]);
      if names[n].Some? && KeyOf(names[n].value) !in seen + KeysOf(names[..n]) {
        var row := Child(target, names[n].value);
        assert rows + ChildrenNamed(target, before + [names[n].value]) == (rows + ChildrenNamed(target, before)) + [row];
        StoredSnoc(rows + ChildrenNamed(target, before), row, id);
      }
      hide StoredKeys;
    }
  }

  lemma {:induction false} StoredAfterBlocks(stored: seq<Child>, blocks: seq<Block>, id: string)
    ensures StoredKeys(RowsAfter(stored, blocks), id) == StoredKeys(stored, id) + EarlierKeys(blocks, id)
  {
    hide StoredKeys, NewNames, KeysOf;
    if blocks != [] {
      var n := |blocks| - 1;
      StoredAfterBlocks(stored, blocks[..n], id);
      StoredAfter(RowsAfter(stored, blocks[..n]), blocks[n].target, blocks[n].names, id);
    }
  }

  lemma {:induction false} SetSplit(k: set<string>, s: set<string>, e: set<string>)
    ensures |k - s| == |k - (s + e)| + |(k - s) * e|
  {
    assert k - s == (k - (s + e)) + ((k - s) * e);
  }

  /** The preview overcounts by exactly the names that repeat across blocks of one company. */
  lemma {:induction false} PreviewOvercounts(stored: seq<Child>, blocks: seq<Block>)
    ensures PreviewCounts(stored, blocks).created == CommitCounts(stored, blocks).created + Repeats(stored, blocks)
    ensures PreviewCounts(stored, blocks).failed == CommitCounts(stored, blocks).failed
    ensures PreviewCounts(stored, blocks).created + PreviewCounts(stored, blocks).skipped
         == CommitCounts(stored, blocks).created + CommitCounts(stored, blocks).skipped
  {
    hide StoredKeys, NewNames, KeysOf, CountsOf, EarlierKeys;
    if blocks != [] {
      var n := |blocks| - 1;
      var b := blocks[n];
      PreviewOvercounts(stored, blocks[..n]);
      var s, e := StoredKeys(stored, b.target), EarlierKeys(blocks[..n], b.target);
      StoredAfterBlocks(stored, blocks[..n], b.target);
      CreatedIsNewKeys(s, b.names);
      CreatedIsNewKeys(s + e, b.names);
      SetSplit(KeysOf(b.names), s, e);
      FailedAnyway(s, s + e, b.names);
      CountsAddUp(s, b.names);
      CountsAddUp(s + e, b.names);
      hide RowsAfter;
    }
  }

  lemma {:induction false} FailedAnyway(seen: set<string>, other: set<string>, names: seq<Option<string>>)
    ensures CountsOf(seen, names).failed == CountsOf(other, names).failed
  {
    hide KeyOf, KeysOf;
    if names != [] {
      FailedAnyway(seen, other, names[..|names| - 1]);
    }
  }

  /** `preview` predicts `commit` exactly when no name that is new to the database comes twice for the
      same company in different blocks of the file. */
  lemma {:induction false} PreviewPredictsIff(tables: Tables, file: seq<LegacyCompany>, uuids: seq<string>)
    requires |uuids| == |file|
    ensures var byName := After(tables, file, uuids, false).byName;
            After(tables, file, uuids, true).report == After(tables, file, uuids, false).report
            <==> Repeats(tables.clients, Blocks(byName, file, true)) == 0 && Repeats(tables.products, Blocks(byName, file, false)) == 0
    ensures After(tables, file, uuids, true).tables == tables
  {
    SameCompanies(tables, file, uuids);
    var byName := After(tables, file, uuids, false).byName;
    RunIsBlocks(tables, file, uuids, true, byName);
    RunIsBlocks(tables, file, uuids, false, byName);
    PreviewOvercounts(tables.clients, Blocks(byName, file, true));
    PreviewOvercounts(tables.products, Blocks(byName, file, false));
    hide After, Blocks, PreviewCounts, CommitCounts, Repeats, RowsAfter;
  }

  /** Each block has a company of its own. */
  ghost predicate OwnTargets(blocks: seq<Block>) {
    forall i, j :: 0 <= i < j < |blocks| ==> blocks[i].target != blocks[j].target
  }

  /** In particular when no two companies of the file stand for the same one. */
  lemma {:induction false} OwnTargetsNeverRepeat(stored: seq<Child>, blocks: seq<Block>)
    requires OwnTargets(blocks)
    ensures Repeats(stored, blocks) == 0
  {
    if blocks != [] {
      var n := |blocks| - 1;
      OwnTargetsNeverRepeat(stored, blocks[..n]);
      NothingEarlier(blocks[..n], blocks[n].target);
      hide KeysOf, StoredKeys;
      assert RepeatedKeys(stored, blocks[..n], blocks[n]) == {};
    }
  }

  lemma {:induction false} NothingEarlier(blocks: seq<Block>, id: string)
    requires forall i :: 0 <= i < |blocks| ==> blocks[i].target != id
    ensures EarlierKeys(blocks, id) == {}
  {
    if blocks != [] {
      NothingEarlier(blocks[..|blocks| - 1], id);
    }
  }

  /** No two companies of the file normalise to one name. */
  ghost predicate DistinctNames(file: seq<LegacyCompany>) {
    forall i, j :: 0 <= i < j < |file| && StoredName(file[i].name).Some? && StoredName(file[j].name).Some? ==>
      KeyOf(StoredName(file[i].name).value) != KeyOf(StoredName(file[j].name).value)
  }

  ghost predicate OneNameEach(byName: map<string, string>) {
    forall k, l :: k in byName && l in byName && byName[k] == byName[l] ==> k == l
  }

  function IdsOf(companies: seq<Company>): set<string> {
    set c | c in companies :: c.id
  }

  /** uuid4 returns no identifier twice, and none that is in the table. */
  ghost predicate FreshIds(companies: seq<Company>, uuids: seq<string>) {
    && (forall i, j :: 0 <= i < j < |companies| ==> companies[i].id != companies[j].id)
    && (forall i, j :: 0 <= i < j < |uuids| ==> uuids[i] != uuids[j])
    && (forall i :: 0 <= i < |uuids| ==> uuids[i] !in IdsOf(companies))
  }

  lemma {:induction false} StoredNameEach(companies: seq<Company>)
    requires FreshIds(companies, [])
    ensures OneNameEach(ByName(companies)) && forall k :: k in ByName(companies) ==> ByName(companies)[k] in IdsOf(companies)
  {
    hide KeyOf;
    if companies != [] {
      var n := |companies| - 1;
      StoredNameEach(companies[..n]);
      assert forall c :: c in companies[..n] ==> c in companies && c.id != companies[n].id;
      assert companies[n] in companies;
    }
  }

  /** Filing an identifier under a name that is not there yet, if it stands for no other. */
  lemma {:induction false} OneMoreName(byName: map<string, string>, key: string, id: string)
    requires OneNameEach(byName) && forall k :: k in byName ==> byName[k] != id
    ensures OneNameEach(byName[key := id])
  {
  }

  lemma {:induction false} FirstNames(tables: Tables, file: seq<LegacyCompany>, uuids: seq<string>, dryRun: bool)
    returns (key: string)
    requires |uuids| == |file| && file != []
    ensures var before := After(tables, file[..|file| - 1], uuids[..|file| - 1], dryRun).byName;
            var after := After(tables, file, uuids, dryRun).byName;
            after == before || after == before[key := uuids[|file| - 1]]
  {
    hide KeyOf, StoredName, ByName, StoredKeys, NewNames, CountsOf, MapClients, MapProducts;
    var name := StoredName(file[|file| - 1].name);
    key := if name.Some? then KeyOf(name.value) else "";
  }

  lemma {:induction false} RunNameEach(tables: Tables, file: seq<LegacyCompany>, uuids: seq<string>, dryRun: bool)
    requires |uuids| == |file| && FreshIds(tables.companies, uuids)
    ensures var byName := After(tables, file, uuids, dryRun).byName;
            OneNameEach(byName) && forall k :: k in byName ==> byName[k] in IdsOf(tables.companies) || byName[k] in uuids
  {
    hide AfterCompany, ByName, OneNameEach, IdsOf;
    if file == [] {
      StoredNameEach(tables.companies);
    } else {
      var n := |file| - 1;
      RunNameEach(tables, file[..n], uuids[..n], dryRun);
      var key := FirstNames(tables, file, uuids, dryRun);
      hide After;
      var before, after := After(tables, file[..n], uuids[..n], dryRun).byName, After(tables, file, uuids, dryRun).byName;
      assert uuids[n] in uuids && forall u :: u in uuids[..n] ==> u in uuids && u != uuids[n];
      if after != before {
        OneMoreName(before, key, uuids[n]);
      }
    }
  }

  lemma {:induction false} DistinctNamesOwnTargets(byName: map<string, string>, file: seq<LegacyCompany>, clients: bool)
    requires DistinctNames(file) && OneNameEach(byName)
    ensures OwnTargets(Blocks(byName, file, clients))
    ensures forall b :: 0 <= b < |Blocks(byName, file, clients)| ==> StandsForSome(byName, file, Blocks(byName, file, clients)[b])
  {
    hide KeyOf, StoredName, BlockNames;
    if file != [] {
      var n := |file| - 1;
      DistinctNamesOwnTargets(byName, file[..n], clients);
      var before, after := Blocks(byName, file[..n], clients), Blocks(byName, file, clients);
      var name := StoredName(file[n].name);
      forall b | 0 <= b < |before|
        ensures StandsForSome(byName, file, before[b])
        ensures name.Some? && KeyOf(name.value) in byName ==> before[b].target != byName[KeyOf(name.value)]
      {
        var i :| StandsFor(byName, file[..n], i, before[b]);
        assert StandsFor(byName, file, i, before[b]);
        assert name.Some? ==> KeyOf(StoredName(file[i].name).value) != KeyOf(name.value);
      }
      if name.Some? && KeyOf(name.value) in byName {
        assert after == before + [Block(byName[KeyOf(name.value)], BlockNames(file[n], clients))];
        assert StandsFor(byName, file, n, after[|before|]);
      }
    }
  }

  ghost predicate StandsFor(byName: map<string, string>, file: seq<LegacyCompany>, i: int, b: Block) {
    && 0 <= i < |file| && StoredName(file[i].name).Some?
    && KeyOf(StoredName(file[i].name).value) in byName && b.target == byName[KeyOf(StoredName(file[i].name).value)]
  }

  ghost predicate StandsForSome(byName: map<string, string>, file: seq<LegacyCompany>, b: Block) {
    exists i :: StandsFor(byName, file, i, b)
  }

  /** So the preview is right about every file whose companies have different names. */
  lemma {:induction false} PreviewPredictsDistinctNames(tables: Tables, file: seq<LegacyCompany>, uuids: seq<string>)
    requires |uuids| == |file| && FreshIds(tables.companies, uuids) && DistinctNames(file)
    ensures After(tables, file, uuids, true).report == After(tables, file, uuids, false).report
  {
    hide After, Blocks, Repeats, FreshIds, DistinctNames, OneNameEach, OwnTargets;
    var byName := After(tables, file, uuids, false).byName;
    RunNameEach(tables, file, uuids, false);
    DistinctNamesOwnTargets(byName, file, true);
    DistinctNamesOwnTargets(byName, file, false);
    OwnTargetsNeverRepeat(tables.clients, Blocks(byName, file, true));
    OwnTargetsNeverRepeat(tables.products, Blocks(byName, file, false));
    PreviewPredictsIff(tables, file, uuids);
  }

  // ------------------------------------------------------------------ committing twice

  /** Everything a company of the file could bring is there already. */
  ghost predicate Settled(tables: Tables, byName: map<string, string>, legacy: LegacyCompany) {
    var name := StoredName(legacy.name);
    name.Some? ==>
      && KeyOf(name.value) in byName
      && KeysOf(MapClients(legacy.clients)) <= StoredKeys(tables.clients, byName[KeyOf(name.value)])
      && KeysOf(MapProducts(legacy.products)) <= StoredKeys(tables.products, byName[KeyOf(name.value)])
  }

  lemma {:induction false} NothingNew(seen: set<string>, names: seq<Option<string>>)
    requires KeysOf(names) <= seen
    ensures NewNames(seen, names) == [] && CountsOf(seen, names).created == 0
  {
    hide KeyOf;
    if names != [] {
      NothingNew(seen, names[..|names| - 1]);
    }
  }

  lemma {:induction false} SettledStep(st: State, legacy: LegacyCompany, uuid: string)
    requires Settled(st.tables, st.byName, legacy)
    ensures var after := AfterCompany(st, legacy, uuid, false);
            && after.tables == st.tables && after.byName == st.byName
            && after.report.companies.created == st.report.companies.created
            && after.report.clients.created == st.report.clients.created
            && after.report.products.created == st.report.products.created
  {
    hide StoredName, KeyOf, StoredKeys, NewNames, CountsOf, MapClients, MapProducts, KeysOf;
    var name := StoredName(legacy.name);
    if name.Some? {
      var id := st.byName[KeyOf(name.value)];
      NothingNew(StoredKeys(st.tables.clients, id), MapClients(legacy.clients));
      NothingNew(StoredKeys(st.tables.products, id), MapProducts(legacy.products));
      assert st.tables.clients + ChildrenNamed(id, []) == st.tables.clients;
      assert st.tables.products + ChildrenNamed(id, []) == st.tables.products;
    }
  }

  /** A commit settles the company it handles and unsettles no other. */
  lemma {:induction false} CommitSettles(st: State, legacy: LegacyCompany, uuid: string, other: LegacyCompany)
    ensures Settled(AfterCompany(st, legacy, uuid, false).tables, AfterCompany(st, legacy, uuid, false).byName, legacy)
    ensures Settled(st.tables, st.byName, other) ==>
      Settled(AfterCompany(st, legacy, uuid, false).tables, AfterCompany(st, legacy, uuid, false).byName, other)
  {
    NamesGrow(st, legacy, uuid, false);
    var name := StoredName(legacy.name);
    if name.Some? {
      var after := AfterCompany(st, legacy, uuid, false);
      var id := after.byName[KeyOf(name.value)];
      var cs, ps := MapClients(legacy.clients), MapProducts(legacy.products);
      hide StoredName, KeyOf, StoredKeys, NewNames, CountsOf, MapClients, MapProducts, KeysOf;
      assert after.tables.clients == st.tables.clients + ChildrenNamed(id, NewNames(StoredKeys(st.tables.clients, id), cs));
      assert after.tables.products == st.tables.products + ChildrenNamed(id, NewNames(StoredKeys(st.tables.products, id), ps));
      hide AfterCompany;
      forall x: string
        ensures StoredKeys(after.tables.clients, x) == StoredKeys(st.tables.clients, x) + if x == id then KeysOf(cs) else {}
        ensures StoredKeys(after.tables.products, x) == StoredKeys(st.tables.products, x) + if x == id then KeysOf(ps) else {}
      {
        StoredAfter(st.tables.clients, id, cs, x);
        StoredAfter(st.tables.products, id, ps, x);
      }
    }
  }

  /** One more company: it settles, and what was settled stays so. */
  lemma {:induction false} SettlesMore(st: State, settled: seq<LegacyCompany>, legacy: LegacyCompany, uuid: string)
    requires forall i :: 0 <= i < |settled| ==> Settled(st.tables, st.byName, settled[i])
    ensures var after, file := AfterCompany(st, legacy, uuid, false), settled + [legacy];
            forall i :: 0 <= i < |file| ==> Settled(after.tables, after.byName, file[i])
  {
    hide Settled, AfterCompany;
    var file := settled + [legacy];
    forall i | 0 <= i < |file|
      ensures Settled(AfterCompany(st, legacy, uuid, false).tables, AfterCompany(st, legacy, uuid, false).byName, file[i])
    {
      CommitSettles(st, legacy, uuid, file[i]);
    }
  }

  lemma {:induction false} RunSettles(tables: Tables, file: seq<LegacyCompany>, uuids: seq<string>)
    requires |uuids| == |file|
    ensures var st := After(tables, file, uuids, false);
            st.byName == ByName(st.tables.companies) && forall i :: 0 <= i < |file| ==> Settled(st.tables, st.byName, file[i])
  {
    hide Settled, AfterCompany, ByName;
    if file != [] {
      var n := |file| - 1;
      var before := After(tables, file[..n], uuids[..n], false);
      RunSettles(tables, file[..n], uuids[..n]);
      NamesMatch(before, file[n], uuids[n]);
      SettlesMore(before, file[..n], file[n], uuids[n]);
      assert file == file[..n] + [file[n]];
    }
  }

  lemma {:induction false} NamesMatch(st: State, legacy: LegacyCompany, uuid: string)
    requires st.byName == ByName(st.tables.companies)
    ensures var after := AfterCompany(st, legacy, uuid, false); after.byName == ByName(after.tables.companies)
  {
    var name := StoredName(legacy.name);
    if name.Some? {
      var longer := st.tables.companies + [Company(uuid, name.value)];
      assert longer[..|st.tables.companies|] == st.tables.companies;
    }
    hide StoredName, KeyOf, StoredKeys, NewNames, CountsOf, MapClients, MapProducts;
  }

  lemma {:induction false} SecondRun(tables: Tables, file: seq<LegacyCompany>, uuids: seq<string>)
    requires |uuids| == |file|
    requires forall i :: 0 <= i < |file| ==> Settled(tables, ByName(tables.companies), file[i])
    ensures var st := After(tables, file, uuids, false);
            && st.tables == tables && st.byName == ByName(tables.companies)
            && st.report.companies.created == 0 && st.report.clients.created == 0 && st.report.products.created == 0
  {
    hide Settled, AfterCompany, ByName;
    if file != [] {
      var n := |file| - 1;
      forall i | 0 <= i < n ensures Settled(tables, ByName(tables.companies), file[..n][i]) {
        assert file[..n][i] == file[i];
      }
      SecondRun(tables, file[..n], uuids[..n]);
      SettledStep(After(tables, file[..n], uuids[..n], false), file[n], uuids[n]);
    }
  }

  /** Re-running never duplicates: committing the same file again creates no company, no client and no
      product, whatever the organization held before, and leaves every row as it was. */
  lemma {:induction false} ImportIsIdempotent(tables: Tables, file: seq<LegacyCompany>, uuids: seq<string>, again: seq<string>)
    requires |uuids| == |file| == |again|
    ensures var once := After(tables, file, uuids, false).tables;
            var twice := After(once, file, again, false);
            && twice.tables == once
            && twice.report.companies.created == 0 && twice.report.clients.created == 0 && twice.report.products.created == 0
  {
    RunSettles(tables, file, uuids);
    SecondRun(After(tables, file, uuids, false).tables, file, again);
    hide After, Settled;
  }
}
