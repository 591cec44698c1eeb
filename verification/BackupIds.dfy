// core/services/backup_service.py:60-90: the walk that gives a backup fresh identifiers.
module BackupIds {
  import opened Common
  import opened Calendar
  import opened Decimals
  import opened Text
  import opened Grouping

  datatype Kind = List | Dict

  /** A JSON document. The keys of a dict are never rewritten, so a dict is its values in model order.
      Numbers, dates, amounts and enumeration values are leaves of their own: their texts never have
      the shape of an identifier. */
  datatype Json =
    | Null
    | Bool(b: bool)
    | Int(n: int)
    | Amount(x: real)
    | Day(d: Date)
    | Tag(t: nat)
    | Str(s: string)
    | Node(kind: Kind, items: seq<Json>)

  // ------------------------------------------------------------------ what counts as an identifier

  predicate IsHex(c: char) {
    IsDigit(c) || 'a' <= c <= 'f' || 'A' <= c <= 'F'
  }

  predicate IsDashPlace(i: int) {
    i == 8 || i == 13 || i == 18 || i == 23
  }

  /** 8-4-4-4-12 hexadecimal digits. */
  predicate UuidShape(s: string) {
    |s| == 36 && forall i :: 0 <= i < 36 ==> if IsDashPlace(i) then s[i] == '-' else IsHex(s[i])
  }

  /** `$` also matches just before a final newline. */
  predicate MatchesUuid(s: string) {
    UuidShape(s) || (|s| == 37 && s[36] == '\n' && UuidShape(s[..36]))
  }

  /** How `str(uuid4())` is written. */
  predicate Canonical(s: string) {
    UuidShape(s) && Lower(s) == s
  }

  predicate HexOrDash(s: string) {
    forall i :: 0 <= i < |s| ==> IsHex(s[i]) || s[i] == '-'
  }

  function WithoutFinalNewline(s: string): (r: string)
    ensures |r| <= |s|
  {
    if s != "" && s[|s| - 1] == '\n' then s[..|s| - 1] else s
  }

  /** `^(bucket:)([0-9a-fA-F-]{36})(:.+)$`: the second and the third group. */
  function BucketGroups(s: string): Option<(string, string)> {
    var t := WithoutFinalNewline(s);
    if |t| >= 45 && t[..7] == "bucket:" && HexOrDash(t[7..43]) && t[43] == ':' && '\n' !in t[43..]
    then Some((t[7..43], t[43..])) else None
  }

  /** Under which key the walk files a string, if it rewrites it at all. */
  function FiledUnder(s: string): Option<string> {
    if MatchesUuid(s) then Some(Lower(s))
    else match BucketGroups(s)
      case None => None
      case Some(g) => Some(Lower(g.0))
  }

  function Rewritten(s: string, id: string): string {
    if MatchesUuid(s) then id
    else match BucketGroups(s)
      case None => s
      case Some(g) => "bucket:" + id + g.1
  }

  // ------------------------------------------------------------------ renaming with a finished map

  function RenameText(s: string, ids: map<string, string>): string {
    var k := FiledUnder(s);
    if k.Some? && k.value in ids then Rewritten(s, ids[k.value]) else s
  }

  function Rename(v: Json, ids: map<string, string>): Json {
    match v
    case Str(s) => Str(RenameText(s, ids))
    case Node(kind, items) => Node(kind, RenameAll(items, ids))
    case _ => v
  }

  function RenameAll(items: seq<Json>, ids: map<string, string>): (r: seq<Json>)
    ensures |r| == |items|
    ensures forall i :: 0 <= i < |items| ==> r[i] == Rename(items[i], ids)
  {
    if items == [] then [] else RenameAll(items[..|items| - 1], ids) + [Rename(items[|items| - 1], ids)]
  }

  /** The keys a document mentions. */
  function KeysIn(v: Json): set<string> {
    match v
    case Str(s) => if FiledUnder(s).Some? then {FiledUnder(s).value} else {}
    case Node(_, items) => KeysInAll(items)
    case _ => {}
  }

  function KeysInAll(items: seq<Json>): set<string> {
    if items == [] then {} else KeysInAll(items[..|items| - 1]) + KeysIn(items[|items| - 1])
  }

  /** How many strings the walk rewrites: each asks for a new identifier, used or not. */
  function Mentions(v: Json): nat {
    match v
    case Str(s) => if FiledUnder(s).Some? then 1 else 0
    case Node(_, items) => MentionsAll(items)
    case _ => 0
  }

  function MentionsAll(items: seq<Json>): nat {
    if items == [] then 0 else MentionsAll(items[..|items| - 1]) + Mentions(items[|items| - 1])
  }

  ghost predicate Extends(ids: map<string, string>, more: map<string, string>) {
    forall k :: k in ids ==> k in more && more[k] == ids[k]
  }

  /** Once a document's keys are filed, filing more changes nothing in it. */
  lemma {:induction false} RenameStable(v: Json, ids: map<string, string>, more: map<string, string>)
    requires KeysIn(v) <= ids.Keys && Extends(ids, more)
    ensures Rename(v, more) == Rename(v, ids)
    decreases v, 0
  {
    hide Rewritten, FiledUnder;
    match v
    case Str(s) =>
    case Node(_, items) => RenameAllStable(items, ids, more);
    case _ =>
  }

  lemma {:induction false} RenameAllStable(items: seq<Json>, ids: map<string, string>, more: map<string, string>)
    requires KeysInAll(items) <= ids.Keys && Extends(ids, more)
    ensures RenameAll(items, more) == RenameAll(items, ids)
    decreases items, |items|
  {
    if items != [] {
      var n := |items| - 1;
      assert items[..n] < items;
      RenameAllStable(items[..n], ids, more);
      RenameStable(items[n], ids, more);
    }
  }

  // ------------------------------------------------------------------ _remap_ids

  ghost predicate Injective(ids: map<string, string>) {
    forall a, b :: a in ids && b in ids && ids[a] == ids[b] ==> a == b
  }

  /** What uuid4 is trusted for: the identifiers it is still going to return are canonical, never
      repeat and have never been returned. */
  ghost predicate Fresh(supply: seq<string>, ids: map<string, string>) {
    && Distinct(supply)
    && (forall id :: id in supply ==> Canonical(id))
    && (forall k :: k in ids ==> ids[k] !in supply)
  }

  /** Every identifier handed out is one the supply had. */
  ghost predicate Drawn(ids: map<string, string>, more: map<string, string>, supply: seq<string>) {
    forall k :: k in more ==> k in ids || more[k] in supply
  }

  /** The dict and the supply before and after filing some keys, with n calls of uuid4. */
  ghost predicate Filed(ids: map<string, string>, supply: seq<string>, ids': map<string, string>, supply': seq<string>,
                        keys: set<string>, n: nat) {
    && Extends(ids, ids') && Drawn(ids, ids', supply)
    && ids'.Keys == ids.Keys + keys
    && n <= |supply| && supply' == supply[n..]
  }

  lemma {:induction false} FiledTwice(ids: map<string, string>, supply: seq<string>, ids1: map<string, string>, supply1: seq<string>,
                                      keys1: set<string>, n1: nat, ids2: map<string, string>, supply2: seq<string>, keys2: set<string>, n2: nat)
    requires Filed(ids, supply, ids1, supply1, keys1, n1) && Filed(ids1, supply1, ids2, supply2, keys2, n2)
    ensures Filed(ids, supply, ids2, supply2, keys1 + keys2, n1 + n2)
  {
  }

  /** The shared dict, and what uuid4 is going to return. */
  class IdMap {
    var ids: map<string, string>
    var supply: seq<string>

    constructor (supply: seq<string>)
      requires Distinct(supply) && forall id :: id in supply ==> Canonical(id)
      ensures ids == map[] && this.supply == supply && Valid()
    {
      ids, this.supply := map[], supply;
    }

    ghost predicate Valid()
      reads this
    {
      Injective(ids) && Fresh(supply, ids)
    }

    /** `ids.setdefault(key, str(uuid4()))`: the default is computed whether or not it is used. */
    method SetDefault(key: string) returns (id: string)
      requires Valid() && supply != []
      modifies this
      ensures Valid() && Extends(old(ids), ids) && Drawn(old(ids), ids, old(supply))
      ensures ids.Keys == old(ids).Keys + {key} && ids[key] == id
      ensures supply == old(supply)[1..]
    {
      var minted := supply[0];
      supply := supply[1..];
      if key !in ids {
        ids := ids[key := minted];
      }
      id := ids[key];
    }

    /** One consistent renaming of everything shaped like an identifier, and a copy of the rest. */
    method RemapIds(v: Json) returns (r: Json)
      requires Valid() && Mentions(v) <= |supply|
      modifies this
      ensures Valid() && Filed(old(ids), old(supply), ids, supply, KeysIn(v), Mentions(v))
      ensures r == Rename(v, ids)
      decreases v
    {
      hide Injective, Fresh, FiledUnder, Rewritten, RenameText, Canonical, Filed, Extends, RenameAll, KeysInAll, MentionsAll;
      match v
      case Str(s) =>
        r := RemapText(s);
      case Node(kind, items) =>
        var done: seq<Json> := [];
        NothingFiled(ids, supply);
        NoItems();
        for i := 0 to |items|
          invariant Valid() && Filed(old(ids), old(supply), ids, supply, KeysInAll(items[..i]), MentionsAll(items[..i]))
          invariant MentionsAll(items[i..]) <= |supply|
          invariant done == RenameAll(items[..i], ids)
        {
          TakeItem(items, i);
          ghost var ids0, supply0 := ids, supply;
          var item := RemapIds(items[i]);
          FiledTwice(old(ids), old(supply), ids0, supply0, KeysInAll(items[..i]), MentionsAll(items[..i]),
                     ids, supply, KeysIn(items[i]), Mentions(items[i]));
          FiledFacts(old(ids), old(supply), ids0, supply0, KeysInAll(items[..i]), MentionsAll(items[..i]));
          FiledFacts(ids0, supply0, ids, supply, KeysIn(items[i]), Mentions(items[i]));
          RenameAllStable(items[..i], ids0, ids);
          done := done + [item];
        }
        assert items[..|items|] == items && items[0..] == items;
        r := Node(kind, done);
      case _ =>
        NothingFiled(ids, supply);
        r := v;
    }

    method RemapText(s: string) returns (r: Json)
      requires Valid() && Mentions(Str(s)) <= |supply|
      modifies this
      ensures Valid() && Filed(old(ids), old(supply), ids, supply, KeysIn(Str(s)), Mentions(Str(s)))
      ensures r == Rename(Str(s), ids)
    {
      hide Injective, Fresh, Canonical, UuidShape;
      if MatchesUuid(s) {
        var id := SetDefault(Lower(s));
        return Str(id);
      }
      var bucket := BucketGroups(s);
      if bucket.Some? {
        var id := SetDefault(Lower(bucket.value.0));
        return Str("bucket:" + id + bucket.value.1);
      }
      r := Str(s);
    }
  }

  lemma {:induction false} NoItems()
    ensures KeysInAll([]) == {} && MentionsAll([]) == 0 && forall ids :: RenameAll([], ids) == []
  {
  }

  lemma {:induction false} NothingFiled(ids: map<string, string>, supply: seq<string>)
    ensures Filed(ids, supply, ids, supply, {}, 0)
  {
  }

  lemma {:induction false} FiledFacts(ids: map<string, string>, supply: seq<string>, ids': map<string, string>, supply': seq<string>,
                                      keys: set<string>, n: nat)
    requires Filed(ids, supply, ids', supply', keys, n)
    ensures Extends(ids, ids') && keys <= ids'.Keys && |supply'| == |supply| - n
  {
  }

  lemma {:induction false} TakeItem(items: seq<Json>, i: nat)
    requires i < |items|
    ensures RenameAllTakes(items, i)
    ensures KeysInAll(items[..i + 1]) == KeysInAll(items[..i]) + KeysIn(items[i])
    ensures MentionsAll(items[..i + 1]) == MentionsAll(items[..i]) + Mentions(items[i])
    ensures MentionsAll(items[i..]) == Mentions(items[i]) + MentionsAll(items[i + 1..])
  {
    assert items[..i + 1][..i] == items[..i];
    MentionsFirst(items[i..]);
    assert items[i..][1..] == items[i + 1..];
  }

  ghost predicate RenameAllTakes(items: seq<Json>, i: nat)
    requires i < |items|
  {
    forall ids :: RenameAll(items[..i + 1], ids) == RenameAll(items[..i], ids) + [Rename(items[i], ids)]
  }

  lemma {:induction false} MentionsFirst(items: seq<Json>)
    requires items != []
    ensures MentionsAll(items) == Mentions(items[0]) + MentionsAll(items[1..])
    decreases |items|
  {
    if |items| > 1 {
      var n := |items| - 1;
      MentionsFirst(items[..n]);
      assert items[..n][1..] == items[1..][..n - 1];
    }
  }

  // ------------------------------------------------------------------ which texts survive

  /** A text comes through a restore unchanged exactly when it is not shaped like an identifier or a
      bucket scope. A comment that is a UUID does not: the walk cannot tell it from a reference. */
  lemma {:induction false} TextUnchangedIff(s: string, ids: map<string, string>)
    requires FiledUnder(s).Some? ==> FiledUnder(s).value in ids
    requires forall k :: k in ids ==> Canonical(ids[k]) && ids[k] != k
    ensures RenameText(s, ids) == s <==> FiledUnder(s).None?
  {
    var k := FiledUnder(s);
    if k.Some? {
      var id := ids[k.value];
      if MatchesUuid(s) {
        assert RenameText(s, ids) == id;
        assert id == s ==> Lower(s) == s;
      } else {
        var g := BucketGroups(s).value;
        var r := "bucket:" + id + g.1;
        assert r[7..43] == id;
        assert r == s ==> WithoutFinalNewline(s) == s;
      }
    }
  }
}
