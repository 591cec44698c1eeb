// api/entitlements/service.py, deps.py and usage.py: the quota checks, and the lock protocol that
// makes them hold under concurrency. A guarded request locks its organization's row, counts, lets
// the endpoint commit through another session, and only then lets go of the row. Usage is never a
// stored counter: it is counted from the rows that exist.
module Quota {
  import opened Common

  datatype Meter = Invoices | Clients | Products | Companies | Seats | PeppolDocuments

  /** `METER_KINDS`: flow meters start again every calendar month, stock meters never do. */
  predicate IsFlow(m: Meter) {
    m.Invoices? || m.PeppolDocuments?
  }

  /** A counted row: what was created, or for Peppol which invoice an audit entry says was exported.
      A period is a calendar month, numbered consecutively. */
  datatype Row = Row(org: string, meter: Meter, period: nat, target: string)

  /** `count_used` counts these: distinct invoices for Peppol, rows otherwise. */
  function Usage(rows: set<Row>, org: string, m: Meter, period: nat): set<string> {
    set r | r in rows && r.org == org && r.meter == m && (IsFlow(m) ==> r.period == period) :: r.target
  }

  /** `MeterUsage.exhausted`; no limit means unlimited. */
  predicate Exhausted(used: nat, limit: Option<nat>) {
    limit.Some? && used >= limit.value
  }

  // ------------------------------------------------------------------ the protocol

  datatype Session = Session(org: string, n: nat)

  datatype Phase =
    | Waiting(meter: Meter, target: string)
    | Locked(meter: Meter, target: string)
    | Passed(meter: Meter, target: string, seen: Option<nat>)
    | Written(meter: Meter)
    | Free(target: string)

  /** `limits` holds what the organization's plan allows now; `clock` is the current month. */
  datatype World = World(
    rows: set<Row>, locks: map<string, nat>, sessions: map<Session, Phase>, clock: nat,
    limits: map<(string, Meter), nat>)

  datatype Event =
    | Arrive(s: Session, meter: Meter, target: string)
    | Acquire(s: Session)
    | Check(s: Session)
    | Write(s: Session)
    | Release(s: Session)
    | Remove(org: string, meter: Meter, target: string)
    | ChangePlan(org: string, meter: Meter, limit: Option<nat>)
    | Unmetered(org: string, target: string)
    | NextMonth

  function LimitOf(w: World, org: string, m: Meter): Option<nat> {
    if (org, m) in w.limits then Some(w.limits[(org, m)]) else None
  }

  function Used(w: World, org: string, m: Meter): nat {
    |Usage(w.rows, org, m, w.clock)|
  }

  function Unlocked(locks: map<string, nat>, s: Session): map<string, nat> {
    if s.org in locks && locks[s.org] == s.n then locks - {s.org} else locks
  }

  /** A row of an ordinary meter is a new row; exporting an invoice again is not. */
  predicate Creatable(w: World, org: string, m: Meter, target: string) {
    m.PeppolDocuments? || forall r :: r in w.rows && r.org == org && r.meter == m ==> r.target != target
  }

  function Next(w: World, e: Event): World {
    match e
    case Arrive(s, meter, target) =>
      if s in w.sessions then w
      else if meter.PeppolDocuments? && target in Usage(w.rows, s.org, meter, w.clock) then
        w.(sessions := w.sessions[s := Free(target)])
      else w.(sessions := w.sessions[s := Waiting(meter, target)])
    case Acquire(s) =>
      if s !in w.sessions || !w.sessions[s].Waiting? || s.org in w.locks then w
      else w.(locks := w.locks[s.org := s.n],
              sessions := w.sessions[s := Locked(w.sessions[s].meter, w.sessions[s].target)])
    case Check(s) =>
      if s !in w.sessions || !w.sessions[s].Locked? then w
      else
        var p := w.sessions[s];
        var limit := LimitOf(w, s.org, p.meter);
        if Exhausted(Used(w, s.org, p.meter), limit) then
          w.(locks := Unlocked(w.locks, s), sessions := w.sessions - {s})
        else w.(sessions := w.sessions[s := Passed(p.meter, p.target, limit)])
    case Write(s) =>
      if s !in w.sessions then w
      else
        var p := w.sessions[s];
        if p.Passed? && Creatable(w, s.org, p.meter, p.target) then
          w.(rows := w.rows + {Row(s.org, p.meter, w.clock, p.target)}, sessions := w.sessions[s := Written(p.meter)])
        else if p.Free? then
          w.(rows := w.rows + {Row(s.org, PeppolDocuments, w.clock, p.target)}, sessions := w.sessions - {s})
        else w
    case Release(s) => w.(locks := Unlocked(w.locks, s), sessions := w.sessions - {s})
    case Remove(org, meter, target) =>
      if meter.PeppolDocuments? then w
      else w.(rows := set r | r in w.rows && !(r.org == org && r.meter == meter && r.target == target))
    case ChangePlan(org, meter, limit) =>
      w.(limits := if limit.Some? then w.limits[(org, meter) := limit.value] else w.limits - {(org, meter)})
    case Unmetered(org, target) =>
      if Creatable(w, org, Invoices, target) then w.(rows := w.rows + {Row(org, Invoices, w.clock, target)}) else w
    case NextMonth => w.(clock := w.clock + 1)
  }

  function Unfold(w: World, es: seq<Event>): World {
    if es == [] then w else Next(Unfold(w, es[..|es| - 1]), es[|es| - 1])
  }

  // ------------------------------------------------------------------ usage, row by row

  lemma {:induction false} UsageOfOne(rows: set<Row>, row: Row, org: string, m: Meter, period: nat)
    ensures Usage(rows + {row}, org, m, period)
         == Usage(rows, org, m, period)
            + if row.org == org && row.meter == m && (IsFlow(m) ==> row.period == period) then {row.target} else {}
  {
    hide IsFlow;
  }

  lemma {:induction false} SubsetCount(a: set<string>, b: set<string>)
    requires a <= b
    ensures |a| <= |b|
  {
    assert b == a + (b - a);
  }

  lemma {:induction false} UsageAfterRemoval(rows: set<Row>, fewer: set<Row>, org: string, m: Meter, period: nat)
    requires fewer <= rows
    ensures |Usage(fewer, org, m, period)| <= |Usage(rows, org, m, period)|
  {
    SubsetCount(Usage(fewer, org, m, period), Usage(rows, org, m, period));
  }

  lemma {:induction false} UsageNextMonth(rows: set<Row>, org: string, m: Meter, clock: nat)
    requires forall r :: r in rows ==> r.period <= clock
    ensures IsFlow(m) ==> Usage(rows, org, m, clock + 1) == {}
    ensures !IsFlow(m) ==> Usage(rows, org, m, clock + 1) == Usage(rows, org, m, clock)
  {
  }

  // ------------------------------------------------------------------ mutual exclusion

  predicate Holding(p: Phase) {
    p.Locked? || p.Passed? || p.Written?
  }

  /** The lock is held by exactly the session that is between acquiring and releasing it. */
  ghost predicate LocksOk(w: World) {
    && (forall s :: s in w.sessions ==> (Holding(w.sessions[s]) <==> s.org in w.locks && w.locks[s.org] == s.n))
    && (forall org :: org in w.locks ==> Session(org, w.locks[org]) in w.sessions)
    && (forall r :: r in w.rows ==> r.period <= w.clock)
  }

  lemma {:induction false} ArriveKeepsLocks(w: World, s: Session, meter: Meter, target: string)
    requires LocksOk(w)
    ensures LocksOk(Next(w, Arrive(s, meter, target)))
  {
    hide Usage;
  }

  lemma {:induction false} AcquireKeepsLocks(w: World, s: Session)
    requires LocksOk(w)
    ensures LocksOk(Next(w, Acquire(s)))
  {
  }

  lemma {:induction false} CheckKeepsLocks(w: World, s: Session)
    requires LocksOk(w)
    ensures LocksOk(Next(w, Check(s)))
  {
    hide Used, Exhausted, LimitOf;
  }

  lemma {:induction false} WriteKeepsLocks(w: World, s: Session)
    requires LocksOk(w)
    ensures LocksOk(Next(w, Write(s)))
  {
    hide Creatable;
  }

  lemma {:induction false} ReleaseKeepsLocks(w: World, s: Session)
    requires LocksOk(w)
    ensures LocksOk(Next(w, Release(s)))
  {
  }

  lemma {:induction false} RequestKeepsLocks(w: World, e: Event)
    requires LocksOk(w) && (e.Arrive? || e.Acquire? || e.Check? || e.Write? || e.Release?)
    ensures LocksOk(Next(w, e))
  {
    hide LocksOk, Next;
    match e
    case Arrive(s, meter, target) => ArriveKeepsLocks(w, s, meter, target);
    case Acquire(s) => AcquireKeepsLocks(w, s);
    case Check(s) => CheckKeepsLocks(w, s);
    case Write(s) => WriteKeepsLocks(w, s);
    case Release(s) => ReleaseKeepsLocks(w, s);
  }

  lemma {:induction false} NextKeepsLocks(w: World, e: Event)
    requires LocksOk(w)
    ensures LocksOk(Next(w, e))
  {
    hide Usage, Creatable;
    match e
    case Remove(_, _, _) =>
    case ChangePlan(_, _, _) =>
    case Unmetered(_, _) =>
    case NextMonth =>
    case _ =>
      hide LocksOk;
      RequestKeepsLocks(w, e);
  }

  /** At any moment of any run at most one request of an organization is between acquiring the lock
      and releasing it, whatever meters they draw on. */
  lemma {:induction false} OneHolderAtATime(w: World, es: seq<Event>, s: Session, t: Session)
    requires LocksOk(w)
    requires s in Unfold(w, es).sessions && t in Unfold(w, es).sessions && s.org == t.org
    requires Holding(Unfold(w, es).sessions[s]) && Holding(Unfold(w, es).sessions[t])
    ensures s == t
  {
    UnfoldKeepsLocks(w, es);
    hide Unfold;
  }

  lemma {:induction false} UnfoldKeepsLocks(w: World, es: seq<Event>)
    requires LocksOk(w)
    ensures LocksOk(Unfold(w, es))
  {
    hide LocksOk, Next;
    if es != [] {
      UnfoldKeepsLocks(w, es[..|es| - 1]);
      NextKeepsLocks(Unfold(w, es[..|es| - 1]), es[|es| - 1]);
    }
  }

  // ------------------------------------------------------------------ a passed check stays valid

  /** Whoever passed the check still has room under the limit it saw. */
  ghost predicate PassedOk(w: World, m: Meter, org: string) {
    forall s :: s in w.sessions && s.org == org && w.sessions[s].Passed? && w.sessions[s].meter == m && w.sessions[s].seen.Some? ==>
      Used(w, org, m) < w.sessions[s].seen.value
  }

  /** A free re-export is of a document that this month has counted already. */
  ghost predicate FreeOk(w: World, org: string) {
    forall s :: s in w.sessions && s.org == org && w.sessions[s].Free? ==>
      w.sessions[s].target in Usage(w.rows, org, PeppolDocuments, w.clock)
  }

  ghost predicate MeterOk(w: World, m: Meter, org: string) {
    LocksOk(w) && PassedOk(w, m, org) && (m.PeppolDocuments? ==> FreeOk(w, org))
  }

  /** A free re-export of the organization is still unwritten. */
  ghost predicate FreePending(w: World, org: string) {
    exists s :: s in w.sessions && s.org == org && w.sessions[s].Free?
  }

  /** Only guarded creations on the organization's meter; and a month ends, as far as its Peppol
      documents are concerned, while none of its free re-exports is unwritten. */
  ghost predicate Guarded(w: World, e: Event, m: Meter, org: string) {
    && !(e.Unmetered? && m.Invoices? && e.org == org)
    && (e.NextMonth? && m.PeppolDocuments? ==> !FreePending(w, org))
  }

  ghost predicate AllGuarded(w: World, es: seq<Event>, m: Meter, org: string) {
    forall i :: 0 <= i < |es| ==> Guarded(Unfold(w, es[..i]), es[i], m, org)
  }

  lemma {:induction false} GuardedSnoc(w: World, es: seq<Event>, m: Meter, org: string)
    requires AllGuarded(w, es, m, org) && es != []
    ensures AllGuarded(w, es[..|es| - 1], m, org) && Guarded(Unfold(w, es[..|es| - 1]), es[|es| - 1], m, org)
  {
    hide Guarded, Unfold;
    var before := es[..|es| - 1];
    forall i | 0 <= i < |before| ensures Guarded(Unfold(w, before[..i]), before[i], m, org) {
      assert before[..i] == es[..i];
    }
  }

  lemma {:induction false} SameRowsKeepMeter(w: World, w': World, m: Meter, org: string)
    requires MeterOk(w, m, org) && LocksOk(w') && w'.rows == w.rows && w'.clock == w.clock
    requires forall s :: s in w'.sessions && s.org == org && w'.sessions[s].Passed? ==>
      (s in w.sessions && w.sessions[s] == w'.sessions[s]) || !Exhausted(Used(w, org, w'.sessions[s].meter), w'.sessions[s].seen)
    requires forall s :: s in w'.sessions && s.org == org && w'.sessions[s].Free? ==>
      (s in w.sessions && w.sessions[s] == w'.sessions[s])
      || w'.sessions[s].target in Usage(w.rows, org, PeppolDocuments, w.clock)
    ensures MeterOk(w', m, org)
  {
    hide Usage, LocksOk;
  }

  /** The events that leave the rows and the month alone. */
  lemma {:induction false} BookkeepingKeepsMeter(w: World, e: Event, m: Meter, org: string)
    requires MeterOk(w, m, org) && (e.Arrive? || e.Acquire? || e.Check? || e.Release? || e.ChangePlan?)
    ensures MeterOk(Next(w, e), m, org)
  {
    hide Usage, LocksOk, Used, Exhausted, LimitOf, PassedOk, FreeOk, Unlocked;
    NextKeepsLocks(w, e);
    hide MeterOk;
    SameRowsKeepMeter(w, Next(w, e), m, org);
  }

  /** A row of the current month that no one who passed the check on its meter is waiting to add. */
  lemma {:induction false} RowKeepsMeter(w: World, row: Row, m: Meter, org: string)
    requires PassedOk(w, m, org) && (m.PeppolDocuments? ==> FreeOk(w, org))
    requires row.org == org && row.meter == m && (IsFlow(m) ==> row.period == w.clock) && row.target !in Usage(w.rows, org, m, w.clock) ==>
      forall s :: s in w.sessions && s.org == org && w.sessions[s].Passed? ==> w.sessions[s].meter != m
    ensures PassedOk(w.(rows := w.rows + {row}), m, org)
    ensures m.PeppolDocuments? ==> FreeOk(w.(rows := w.rows + {row}), org)
  {
    UsageOfOne(w.rows, row, org, m, w.clock);
    hide Usage, IsFlow;
  }

  lemma {:induction false} AloneAtTheLock(w: World, s: Session)
    requires LocksOk(w) && s in w.sessions && w.sessions[s].Passed?
    ensures forall t :: t in w.sessions && t.org == s.org && w.sessions[t].Passed? ==> t == s
  {
  }

  lemma {:induction false} WriteKeepsMeter(w: World, s: Session, m: Meter, org: string)
    requires MeterOk(w, m, org)
    ensures MeterOk(Next(w, Write(s)), m, org)
  {
    hide Usage, Creatable, LocksOk, IsFlow;
    NextKeepsLocks(w, Write(s));
    if s in w.sessions {
      var p := w.sessions[s];
      if p.Passed? && Creatable(w, s.org, p.meter, p.target) {
        AloneAtTheLock(w, s);
        var others := w.(sessions := w.sessions[s := Written(p.meter)]);
        RowKeepsMeter(others, Row(s.org, p.meter, w.clock, p.target), m, org);
      } else if p.Free? {
        var others := w.(sessions := w.sessions - {s});
        RowKeepsMeter(others, Row(s.org, PeppolDocuments, w.clock, p.target), m, org);
      }
    }
  }

  /** Fewer documents in use, and the same Peppol documents. */
  lemma {:induction false} FewerKeepMeter(w: World, w': World, m: Meter, org: string)
    requires MeterOk(w, m, org) && LocksOk(w') && w'.sessions == w.sessions
    requires Used(w', org, m) <= Used(w, org, m)
    requires m.PeppolDocuments? ==>
      Usage(w'.rows, org, m, w'.clock) == Usage(w.rows, org, m, w.clock) || !FreePending(w, org)
    ensures MeterOk(w', m, org)
  {
    hide Usage, LocksOk, Used;
  }

  lemma {:induction false} RemoveKeepsMeter(w: World, e: Event, m: Meter, org: string)
    requires MeterOk(w, m, org) && e.Remove?
    ensures MeterOk(Next(w, e), m, org)
  {
    hide LocksOk, PassedOk, FreeOk;
    NextKeepsLocks(w, e);
    PeppolSurvives(w, e, org);
    UsageAfterRemoval(w.rows, Next(w, e).rows, org, m, w.clock);
    hide Usage, MeterOk;
    FewerKeepMeter(w, Next(w, e), m, org);
  }

  /** The audit log is append-only: no removal takes a Peppol document off the count. */
  lemma {:induction false} PeppolSurvives(w: World, e: Event, org: string)
    requires e.Remove?
    ensures Usage(Next(w, e).rows, org, PeppolDocuments, w.clock) == Usage(w.rows, org, PeppolDocuments, w.clock)
  {
  }

  lemma {:induction false} UnmeteredKeepsMeter(w: World, e: Event, m: Meter, org: string)
    requires MeterOk(w, m, org) && e.Unmetered? && Guarded(w, e, m, org)
    ensures MeterOk(Next(w, e), m, org)
  {
    hide LocksOk, PassedOk, FreeOk, Usage, FreePending, IsFlow, Creatable;
    NextKeepsLocks(w, e);
    UsageOfOne(w.rows, Row(e.org, Invoices, w.clock, e.target), org, m, w.clock);
    hide MeterOk;
    FewerKeepMeter(w, Next(w, e), m, org);
  }

  lemma {:induction false} PeriodsPast(w: World)
    requires LocksOk(w)
    ensures forall r :: r in w.rows ==> r.period <= w.clock
  {
  }

  lemma {:induction false} MonthEndKeepsMeter(w: World, m: Meter, org: string)
    requires MeterOk(w, m, org) && Guarded(w, NextMonth, m, org)
    ensures MeterOk(Next(w, NextMonth), m, org)
  {
    hide LocksOk, PassedOk, FreeOk, Usage, FreePending, IsFlow;
    NextKeepsLocks(w, NextMonth);
    PeriodsPast(w);
    UsageNextMonth(w.rows, org, m, w.clock);
    hide MeterOk;
    FewerKeepMeter(w, Next(w, NextMonth), m, org);
  }

  lemma {:induction false} NextKeepsMeter(w: World, e: Event, m: Meter, org: string)
    requires MeterOk(w, m, org) && Guarded(w, e, m, org)
    ensures MeterOk(Next(w, e), m, org)
  {
    hide MeterOk, Next, Guarded;
    match e
    case Write(s) => WriteKeepsMeter(w, s, m, org);
    case Remove(_, _, _) => RemoveKeepsMeter(w, e, m, org);
    case Unmetered(_, _) => UnmeteredKeepsMeter(w, e, m, org);
    case NextMonth => MonthEndKeepsMeter(w, m, org);
    case _ => BookkeepingKeepsMeter(w, e, m, org);
  }

  lemma {:induction false} UnfoldKeepsMeter(w: World, es: seq<Event>, m: Meter, org: string)
    requires MeterOk(w, m, org) && AllGuarded(w, es, m, org)
    ensures MeterOk(Unfold(w, es), m, org)
  {
    hide MeterOk, Next, Guarded, AllGuarded;
    if es != [] {
      GuardedSnoc(w, es, m, org);
      UnfoldKeepsMeter(w, es[..|es| - 1], m, org);
      NextKeepsMeter(Unfold(w, es[..|es| - 1]), es[|es| - 1], m, org);
    }
  }

  lemma {:induction false} FreshStartOk(w: World, m: Meter, org: string)
    requires LocksOk(w) && w.sessions == map[]
    ensures MeterOk(w, m, org) && SeenIsCurrent(w, m, org)
  {
    hide LocksOk;
  }

  /** Over every interleaving of guarded requests of any organizations, with deletions, plan changes
      and month ends in between: whoever is about to create has fewer than the limit it was checked
      against. For Peppol the month ends are those that find no free re-export unwritten. */
  lemma {:induction false} GuardedCreationHasRoom(w: World, es: seq<Event>, s: Session)
    requires LocksOk(w) && w.sessions == map[]
    requires var end := Unfold(w, es); s in end.sessions && end.sessions[s].Passed? && end.sessions[s].seen.Some?
    requires AllGuarded(w, es, Unfold(w, es).sessions[s].meter, s.org)
    ensures var end := Unfold(w, es); Used(end, s.org, end.sessions[s].meter) < end.sessions[s].seen.value
  {
    hide AllGuarded, Unfold, LocksOk, Used;
    var m := Unfold(w, es).sessions[s].meter;
    FreshStartOk(w, m, s.org);
    UnfoldKeepsMeter(w, es, m, s.org);
  }

  // ------------------------------------------------------------------ usage stays within the limit

  ghost predicate Within(w: World, m: Meter, org: string) {
    LimitOf(w, org, m).Some? ==> Used(w, org, m) <= LimitOf(w, org, m).value
  }

  /** With a fixed plan, what a request saw is what still applies. */
  ghost predicate SeenIsCurrent(w: World, m: Meter, org: string) {
    forall s :: s in w.sessions && s.org == org && w.sessions[s].Passed? && w.sessions[s].meter == m ==>
      w.sessions[s].seen == LimitOf(w, org, m)
  }

  predicate KeepsPlan(e: Event, m: Meter, org: string) {
    !(e.ChangePlan? && e.org == org && e.meter == m)
  }

  predicate AllKeepPlan(es: seq<Event>, m: Meter, org: string) {
    forall i :: 0 <= i < |es| ==> KeepsPlan(es[i], m, org)
  }

  lemma {:induction false} LimitStays(w: World, e: Event, m: Meter, org: string)
    requires KeepsPlan(e, m, org)
    ensures LimitOf(Next(w, e), org, m) == LimitOf(w, org, m)
  {
    hide Usage, Creatable, Exhausted, Unlocked, Used;
  }

  /** Who has passed after an event had passed before it, or passes at the limit of the moment. */
  lemma {:induction false} PassedBefore(w: World, e: Event, s: Session)
    requires s in Next(w, e).sessions && Next(w, e).sessions[s].Passed?
    ensures (s in w.sessions && w.sessions[s] == Next(w, e).sessions[s])
         || Next(w, e).sessions[s].seen == LimitOf(w, s.org, Next(w, e).sessions[s].meter)
  {
    hide Usage, Creatable, Exhausted, Unlocked, Used, LimitOf;
  }

  lemma {:induction false} NextKeepsSeen(w: World, e: Event, m: Meter, org: string)
    requires SeenIsCurrent(w, m, org) && KeepsPlan(e, m, org)
    ensures SeenIsCurrent(Next(w, e), m, org) && LimitOf(Next(w, e), org, m) == LimitOf(w, org, m)
  {
    hide Next, LimitOf, KeepsPlan;
    LimitStays(w, e, m, org);
    forall s | s in Next(w, e).sessions && s.org == org && Next(w, e).sessions[s].Passed? && Next(w, e).sessions[s].meter == m
      ensures Next(w, e).sessions[s].seen == LimitOf(Next(w, e), org, m)
    {
      PassedBefore(w, e, s);
    }
  }

  /** A request that writes adds at most one document, and only a guarded or a free one can. */
  lemma {:induction false} WriteKeepsWithin(w: World, s: Session, m: Meter, org: string)
    requires MeterOk(w, m, org) && SeenIsCurrent(w, m, org) && Within(w, m, org)
    ensures Within(Next(w, Write(s)), m, org)
  {
    hide Usage, Creatable, LocksOk, IsFlow;
    if s in w.sessions {
      var p := w.sessions[s];
      if p.Passed? {
        UsageOfOne(w.rows, Row(s.org, p.meter, w.clock, p.target), org, m, w.clock);
      } else if p.Free? {
        UsageOfOne(w.rows, Row(s.org, PeppolDocuments, w.clock, p.target), org, m, w.clock);
      }
    }
  }

  lemma {:induction false} NextKeepsWithin(w: World, e: Event, m: Meter, org: string)
    requires MeterOk(w, m, org) && Guarded(w, e, m, org) && KeepsPlan(e, m, org)
    requires SeenIsCurrent(w, m, org) && Within(w, m, org)
    ensures Within(Next(w, e), m, org)
  {
    hide Usage, Creatable, Exhausted, LocksOk, PassedOk, FreeOk, IsFlow, Unlocked;
    match e
    case Write(s) => WriteKeepsWithin(w, s, m, org);
    case Remove(_, _, _) => UsageAfterRemoval(w.rows, Next(w, e).rows, org, m, w.clock);
    case Unmetered(o, target) => UsageOfOne(w.rows, Row(o, Invoices, w.clock, target), org, m, w.clock);
    case NextMonth =>
      PeriodsPast(w);
      UsageNextMonth(w.rows, org, m, w.clock);
    case _ =>
  }

  lemma {:induction false} UnfoldKeepsWithin(w: World, es: seq<Event>, m: Meter, org: string)
    requires MeterOk(w, m, org) && SeenIsCurrent(w, m, org) && Within(w, m, org)
    requires AllGuarded(w, es, m, org) && AllKeepPlan(es, m, org)
    ensures Within(Unfold(w, es), m, org) && SeenIsCurrent(Unfold(w, es), m, org)
    ensures LimitOf(Unfold(w, es), org, m) == LimitOf(w, org, m)
  {
    hide MeterOk, Within, SeenIsCurrent, Next, Guarded, AllGuarded, KeepsPlan, LimitOf;
    if es != [] {
      var before := Unfold(w, es[..|es| - 1]);
      GuardedSnoc(w, es, m, org);
      UnfoldKeepsWithin(w, es[..|es| - 1], m, org);
      UnfoldKeepsMeter(w, es[..|es| - 1], m, org);
      NextKeepsSeen(before, es[|es| - 1], m, org);
      NextKeepsWithin(before, es[|es| - 1], m, org);
    }
  }

  /** With a fixed plan and only guarded creations, no interleaving takes an organization over its
      limit, across month ends too; for Peppol, across those that find no free re-export unwritten. */
  lemma {:induction false} UsageStaysWithinLimit(w: World, es: seq<Event>, m: Meter, org: string)
    requires LocksOk(w) && w.sessions == map[] && Within(w, m, org)
    requires AllGuarded(w, es, m, org) && AllKeepPlan(es, m, org)
    ensures Within(Unfold(w, es), m, org)
  {
    hide LocksOk, Within, AllGuarded, AllKeepPlan, Unfold, MeterOk, SeenIsCurrent;
    FreshStartOk(w, m, org);
    UnfoldKeepsWithin(w, es, m, org);
  }

  // ------------------------------------------------------------------ one request

  /** What an organization has in use under a meter: of this month only for invoices and Peppol documents. */
  ghost function InUse(w: World, org: string, m: Meter): set<string> {
    set r | r in w.rows && r.org == org && r.meter == m && (m == Invoices || m == PeppolDocuments ==> r.period == w.clock) :: r.target
  }

  /** The plan sets no limit, or there is less in use than it allows. */
  ghost predicate HasRoom(w: World, org: string, m: Meter) {
    (org, m) in w.limits ==> |InUse(w, org, m)| < w.limits[(org, m)]
  }

  lemma {:induction false} RoomIff(w: World, org: string, m: Meter)
    ensures HasRoom(w, org, m) <==> !Exhausted(Used(w, org, m), LimitOf(w, org, m))
  {
    assert InUse(w, org, m) == Usage(w.rows, org, m, w.clock);
  }

  /** The check lets a request through exactly when there is room; otherwise the request is over and its lock free. */
  lemma {:induction false} CheckPassesIff(w: World, s: Session)
    requires LocksOk(w) && s in w.sessions && w.sessions[s].Locked?
    ensures var p, end := w.sessions[s], Next(w, Check(s));
            if HasRoom(w, s.org, p.meter)
            then end == w.(sessions := w.sessions[s := Passed(p.meter, p.target, LimitOf(w, s.org, p.meter))])
            else end == w.(locks := w.locks - {s.org}, sessions := w.sessions - {s})
  {
    RoomIff(w, s.org, w.sessions[s].meter);
    hide HasRoom, Exhausted, Used, LimitOf;
  }

  /** A whole request for one more document, undisturbed. */
  function Requested(w: World, s: Session, m: Meter, target: string): World {
    Next(Next(Next(Next(Next(w, Arrive(s, m, target)), Acquire(s)), Check(s)), Write(s)), Release(s))
  }

  lemma {:induction false} UntilTheCheck(w: World, s: Session, m: Meter, target: string)
    requires s !in w.sessions && s.org !in w.locks
    requires m == PeppolDocuments ==> target !in Usage(w.rows, s.org, m, w.clock)
    ensures Next(Next(w, Arrive(s, m, target)), Acquire(s)) == w.(locks := w.locks[s.org := s.n], sessions := w.sessions[s := Locked(m, target)])
  {
    hide Usage;
  }

  lemma {:induction false} AfterTheCheck(w: World, s: Session, m: Meter, target: string, seen: Option<nat>)
    requires s !in w.sessions && s.org !in w.locks && Creatable(w, s.org, m, target)
    ensures var passed := w.(locks := w.locks[s.org := s.n], sessions := w.sessions[s := Passed(m, target, seen)]);
            Next(Next(passed, Write(s)), Release(s)) == w.(rows := w.rows + {Row(s.org, m, w.clock, target)})
  {
    hide Usage, Used, LimitOf, Exhausted;
    var passed := w.(locks := w.locks[s.org := s.n], sessions := w.sessions[s := Passed(m, target, seen)]);
    assert Creatable(passed, s.org, m, target);
    assert (passed.locks - {s.org}) == w.locks && (passed.sessions[s := Written(m)] - {s}) == w.sessions;
  }

  lemma {:induction false} NothingToRelease(w: World, s: Session)
    requires s !in w.sessions && s.org !in w.locks
    ensures Next(Next(w, Write(s)), Release(s)) == w
  {
    hide Usage, Creatable;
    assert w.sessions - {s} == w.sessions;
  }

  lemma {:induction false} AtTheCheck(w: World, s: Session, m: Meter, target: string)
    requires s !in w.sessions && s.org !in w.locks
    ensures var locked := w.(locks := w.locks[s.org := s.n], sessions := w.sessions[s := Locked(m, target)]);
            Next(locked, Check(s))
            == if HasRoom(w, s.org, m)
               then w.(locks := w.locks[s.org := s.n], sessions := w.sessions[s := Passed(m, target, LimitOf(w, s.org, m))])
               else w
  {
    var locked := w.(locks := w.locks[s.org := s.n], sessions := w.sessions[s := Locked(m, target)]);
    RoomIff(w, s.org, m);
    assert Used(locked, s.org, m) == Used(w, s.org, m) && LimitOf(locked, s.org, m) == LimitOf(w, s.org, m);
    hide HasRoom, Exhausted, Used, LimitOf;
    assert locked.locks - {s.org} == w.locks && locked.sessions - {s} == w.sessions;
    assert locked.sessions[s := Passed(m, target, LimitOf(w, s.org, m))] == w.sessions[s := Passed(m, target, LimitOf(w, s.org, m))];
  }

  /** A request for a new document adds exactly that document if there is room, and otherwise changes nothing. */
  lemma {:induction false} RequestServedIff(w: World, s: Session, m: Meter, target: string)
    requires s !in w.sessions && s.org !in w.locks
    requires forall r :: r in w.rows && r.org == s.org && r.meter == m ==> r.target != target
    ensures Requested(w, s, m, target) == if HasRoom(w, s.org, m) then w.(rows := w.rows + {Row(s.org, m, w.clock, target)}) else w
    ensures HasRoom(w, s.org, m) ==> |InUse(Requested(w, s, m, target), s.org, m)| == |InUse(w, s.org, m)| + 1
  {
    NotYetThere(w, s.org, m, target);
    hide *;
    UntilTheCheck(w, s, m, target);
    AtTheCheck(w, s, m, target);
    InTurn(w, s, m, target);
    if HasRoom(w, s.org, m) {
      AfterTheCheck(w, s, m, target, LimitOf(w, s.org, m));
    } else {
      NothingToRelease(w, s);
    }
  }

  lemma {:induction false} InTurn(w: World, s: Session, m: Meter, target: string)
    ensures Requested(w, s, m, target) == Next(Next(Next(Next(Next(w, Arrive(s, m, target)), Acquire(s)), Check(s)), Write(s)), Release(s))
  {
    hide Next;
  }

  lemma {:induction false} NotYetThere(w: World, org: string, m: Meter, target: string)
    requires forall r :: r in w.rows && r.org == org && r.meter == m ==> r.target != target
    ensures Creatable(w, org, m, target) && target !in Usage(w.rows, org, m, w.clock)
    ensures |InUse(w.(rows := w.rows + {Row(org, m, w.clock, target)}), org, m)| == |InUse(w, org, m)| + 1
  {
    var more := w.(rows := w.rows + {Row(org, m, w.clock, target)});
    UsageOfOne(w.rows, Row(org, m, w.clock, target), org, m, w.clock);
    assert InUse(more, org, m) == Usage(more.rows, org, m, w.clock) && InUse(w, org, m) == Usage(w.rows, org, m, w.clock);
  }

  /** What frees or takes room besides requests: a removed document no longer counts, unless it is a Peppol one; an
      invoice made without the guard, as converting a quote makes one, counts although nobody checked; and the limit of a
      new plan is the one that applies. */
  lemma {:induction false} RoomMoves(w: World, org: string, m: Meter, target: string, limit: Option<nat>)
    ensures InUse(Next(w, Remove(org, m, target)), org, m) == InUse(w, org, m) - if m == PeppolDocuments then {} else {target}
    ensures InUse(Next(w, Unmetered(org, target)), org, Invoices)
         == InUse(w, org, Invoices) + if exists r :: r in w.rows && r.org == org && r.meter == Invoices && r.target == target then {} else {target}
    ensures LimitOf(Next(w, ChangePlan(org, m, limit)), org, m) == limit
  {
    Removed(w, org, m, target);
    Added(w, org, target);
    hide InUse, Usage, Creatable, Exhausted, Used, Unlocked;
  }

  lemma {:induction false} Removed(w: World, org: string, m: Meter, target: string)
    ensures InUse(Next(w, Remove(org, m, target)), org, m) == InUse(w, org, m) - if m == PeppolDocuments then {} else {target}
  {
    hide Usage, Creatable, Exhausted, Used, Unlocked, LimitOf;
  }

  lemma {:induction false} Added(w: World, org: string, target: string)
    ensures InUse(Next(w, Unmetered(org, target)), org, Invoices)
         == InUse(w, org, Invoices) + if exists r :: r in w.rows && r.org == org && r.meter == Invoices && r.target == target then {} else {target}
  {
    hide Usage, Exhausted, Used, Unlocked, LimitOf;
  }

  // ------------------------------------------------------------------ tenants do not contend

  function OrgOf(e: Event): Option<string> {
    match e
    case NextMonth => None
    case Remove(org, _, _) => Some(org)
    case ChangePlan(org, _, _) => Some(org)
    case Unmetered(org, _) => Some(org)
    case _ => Some(e.s.org)
  }

  /** The events an organization can see: its own, and the calendar's. */
  function Visible(es: seq<Event>, org: string): seq<Event> {
    if es == [] then []
    else
      Visible(es[..|es| - 1], org)
      + if OrgOf(es[|es| - 1]) in [None, Some(org)] then [es[|es| - 1]] else []
  }

  function RowsOf(rows: set<Row>, org: string): set<Row> {
    set r | r in rows && r.org == org
  }

  function LocksOf(locks: map<string, nat>, org: string): map<string, nat> {
    map o | o in locks && o == org :: locks[o]
  }

  function SessionsOf(sessions: map<Session, Phase>, org: string): map<Session, Phase> {
    map s | s in sessions && s.org == org :: sessions[s]
  }

  function LimitsOf(limits: map<(string, Meter), nat>, org: string): map<(string, Meter), nat> {
    map k | k in limits && k.0 == org :: limits[k]
  }

  /** The part of the world that belongs to one organization. */
  function ViewOf(w: World, org: string): World {
    World(RowsOf(w.rows, org), LocksOf(w.locks, org), SessionsOf(w.sessions, org), w.clock, LimitsOf(w.limits, org))
  }

  lemma {:induction false} SameUsage(w: World, org: string, m: Meter)
    ensures Usage(RowsOf(w.rows, org), org, m, w.clock) == Usage(w.rows, org, m, w.clock)
  {
  }

  lemma {:induction false} RowsView(rows: set<Row>, row: Row, org: string)
    ensures RowsOf(rows + {row}, org) == RowsOf(rows, org) + if row.org == org then {row} else {}
  {
  }

  lemma {:induction false} RemovalView(rows: set<Row>, o: string, m: Meter, target: string, org: string)
    ensures var fewer := set r | r in rows && !(r.org == o && r.meter == m && r.target == target);
            RowsOf(fewer, org)
            == if o == org then set r | r in RowsOf(rows, org) && !(r.org == o && r.meter == m && r.target == target)
               else RowsOf(rows, org)
  {
  }

  lemma {:induction false} SessionView(sessions: map<Session, Phase>, s: Session, p: Phase, org: string)
    ensures SessionsOf(sessions[s := p], org) == if s.org == org then SessionsOf(sessions, org)[s := p] else SessionsOf(sessions, org)
    ensures SessionsOf(sessions - {s}, org) == if s.org == org then SessionsOf(sessions, org) - {s} else SessionsOf(sessions, org)
    ensures s.org == org ==> (s in SessionsOf(sessions, org) <==> s in sessions)
    ensures s.org == org && s in sessions ==> SessionsOf(sessions, org)[s] == sessions[s]
  {
  }

  lemma {:induction false} LockView(locks: map<string, nat>, s: Session, org: string)
    ensures LocksOf(locks[s.org := s.n], org) == if s.org == org then LocksOf(locks, org)[s.org := s.n] else LocksOf(locks, org)
    ensures LocksOf(Unlocked(locks, s), org) == if s.org == org then Unlocked(LocksOf(locks, org), s) else LocksOf(locks, org)
    ensures org in LocksOf(locks, org) <==> org in locks
  {
  }

  lemma {:induction false} LimitView(limits: map<(string, Meter), nat>, o: string, m: Meter, limit: nat, org: string)
    ensures LimitsOf(limits[(o, m) := limit], org)
         == if o == org then LimitsOf(limits, org)[(o, m) := limit] else LimitsOf(limits, org)
    ensures LimitsOf(limits - {(o, m)}, org) == if o == org then LimitsOf(limits, org) - {(o, m)} else LimitsOf(limits, org)
    ensures o == org ==> ((o, m) in LimitsOf(limits, org) <==> (o, m) in limits)
    ensures o == org && (o, m) in limits ==> LimitsOf(limits, org)[(o, m)] == limits[(o, m)]
  {
  }

  lemma {:induction false} CreatableView(w: World, org: string, m: Meter, target: string)
    ensures Creatable(ViewOf(w, org), org, m, target) == Creatable(w, org, m, target)
  {
    hide Usage, LocksOf, SessionsOf, LimitsOf;
    assert forall r :: r in RowsOf(w.rows, org) <==> r in w.rows && r.org == org;
  }

  lemma {:induction false} InvisibleEvent(w: World, e: Event, org: string)
    requires OrgOf(e) !in [None, Some(org)]
    ensures ViewOf(Next(w, e), org) == ViewOf(w, org)
  {
    hide Usage, Creatable, Exhausted, RowsOf, LocksOf, SessionsOf, LimitsOf, Unlocked;
    match e
    case Remove(o, m, target) => RemovalView(w.rows, o, m, target, org);
    case ChangePlan(o, m, limit) => LimitView(w.limits, o, m, if limit.Some? then limit.value else 0, org);
    case Unmetered(o, target) => RowsView(w.rows, Row(o, Invoices, w.clock, target), org);
    case Arrive(s, m, target) =>
      SessionView(w.sessions, s, Free(target), org);
      SessionView(w.sessions, s, Waiting(m, target), org);
    case _ => InvisibleRequest(w, e, org);
  }

  lemma {:induction false} InvisibleRequest(w: World, e: Event, org: string)
    requires (e.Acquire? || e.Check? || e.Write? || e.Release?) && e.s.org != org
    ensures ViewOf(Next(w, e), org) == ViewOf(w, org)
  {
    hide Usage, Creatable, Exhausted, RowsOf, LocksOf, SessionsOf, LimitsOf, Unlocked;
    LockView(w.locks, e.s, org);
    SessionView(w.sessions, e.s, Free(""), org);
    if e.s in w.sessions {
      var p := w.sessions[e.s];
      if p.Waiting? { SessionView(w.sessions, e.s, Locked(p.meter, p.target), org); }
      if p.Locked? { SessionView(w.sessions, e.s, Passed(p.meter, p.target, LimitOf(w, e.s.org, p.meter)), org); }
      if p.Passed? {
        SessionView(w.sessions, e.s, Written(p.meter), org);
        RowsView(w.rows, Row(e.s.org, p.meter, w.clock, p.target), org);
      }
      if p.Free? { RowsView(w.rows, Row(e.s.org, PeppolDocuments, w.clock, p.target), org); }
    }
  }

  lemma {:induction false} VisibleEvent(w: World, e: Event, org: string)
    requires OrgOf(e) in [None, Some(org)]
    ensures ViewOf(Next(w, e), org) == Next(ViewOf(w, org), e)
  {
    hide Usage, Creatable, Exhausted, RowsOf, LocksOf, SessionsOf, LimitsOf, Unlocked;
    match e
    case Remove(o, m, target) => RemovalView(w.rows, o, m, target, org);
    case ChangePlan(o, m, limit) => LimitView(w.limits, o, m, if limit.Some? then limit.value else 0, org);
    case Unmetered(o, target) =>
      RowsView(w.rows, Row(o, Invoices, w.clock, target), org);
      CreatableView(w, org, Invoices, target);
    case NextMonth =>
    case Arrive(s, m, target) =>
      SessionView(w.sessions, s, Free(target), org);
      SessionView(w.sessions, s, Waiting(m, target), org);
      SameUsage(w, org, m);
    case _ => VisibleRequest(w, e);
  }

  lemma {:induction false} VisibleRequest(w: World, e: Event)
    requires e.Acquire? || e.Check? || e.Write? || e.Release?
    ensures ViewOf(Next(w, e), e.s.org) == Next(ViewOf(w, e.s.org), e)
  {
    hide Usage, Creatable, Exhausted, RowsOf, LocksOf, SessionsOf, LimitsOf, Unlocked;
    var org := e.s.org;
    LockView(w.locks, e.s, org);
    SessionView(w.sessions, e.s, Free(""), org);
    if e.s in w.sessions {
      var p := w.sessions[e.s];
      match p
      case Waiting(meter, target) => SessionView(w.sessions, e.s, Locked(meter, target), org);
      case Locked(meter, target) =>
        SessionView(w.sessions, e.s, Passed(meter, target, LimitOf(w, org, meter)), org);
        SameUsage(w, org, meter);
        LimitView(w.limits, org, meter, 0, org);
      case Passed(meter, target, _) =>
        SessionView(w.sessions, e.s, Written(meter), org);
        RowsView(w.rows, Row(org, meter, w.clock, target), org);
        CreatableView(w, org, meter, target);
      case Free(target) => RowsView(w.rows, Row(org, PeppolDocuments, w.clock, target), org);
      case Written(_) =>
    }
  }

  /** Different tenants never contend: what an organization sees of any interleaving, down to every
      refusal and every lock, is what its own requests alone would have produced. */
  lemma {:induction false} TenantsDoNotContend(w: World, es: seq<Event>, org: string)
    ensures ViewOf(Unfold(w, es), org) == Unfold(ViewOf(w, org), Visible(es, org))
  {
    hide Next, ViewOf;
    if es != [] {
      var before, e := es[..|es| - 1], es[|es| - 1];
      TenantsDoNotContend(w, before, org);
      if OrgOf(e) in [None, Some(org)] {
        VisibleEvent(Unfold(w, before), e, org);
        var seen := Visible(before, org);
        assert (seen + [e])[..|seen|] == seen;
      } else {
        InvisibleEvent(Unfold(w, before), e, org);
        assert Visible(es, org) == Visible(before, org);
      }
    }
  }
}
