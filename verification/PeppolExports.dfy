// api/entitlements/deps.py:109-133: what exporting an invoice again costs. The look-up of the first
// session runs before the lock is taken and is never repeated, so a request it finds free writes
// without the lock, whenever it gets there.
module PeppolExports {
  import opened Common
  import opened Quota

  // ------------------------------------------------------------------ runs

  lemma {:induction false} UnfoldAppend(w: World, a: seq<Event>, b: seq<Event>)
    ensures Unfold(w, a + b) == Unfold(Unfold(w, a), b)
  {
    hide Next;
    if b == [] {
      assert a + b == a;
    } else {
      var n := |b| - 1;
      assert (a + b)[..|a| + n] == a + b[..n];
      UnfoldAppend(w, a, b[..n]);
    }
  }

  lemma {:induction false} UnfoldOne(w: World, e: Event)
    ensures Unfold(w, [e]) == Next(w, e)
  {
    hide Next;
    assert [e][..0] == [];
    assert Unfold(w, []) == w;
  }

  /** Nothing but requests: the month, the plans and the deletions stand still. */
  predicate Calm(es: seq<Event>) {
    forall i :: 0 <= i < |es| ==> !es[i].NextMonth? && !es[i].Unmetered? && !es[i].ChangePlan? && !es[i].Remove?
  }

  lemma {:induction false} CalmIsGuarded(w: World, es: seq<Event>, m: Meter, org: string)
    requires Calm(es)
    ensures AllGuarded(w, es, m, org) && AllKeepPlan(es, m, org)
  {
    hide Unfold, FreePending;
  }

  /** None of the events is the request's own, nor the end of a month. */
  predicate Elsewhere(es: seq<Event>, s: Session) {
    forall i :: 0 <= i < |es| ==> !es[i].NextMonth? && es[i] != Write(s) && es[i] != Release(s)
  }

  // ------------------------------------------------------------------ a free re-export

  /** The rows of the month stay: Peppol documents are never removed. */
  lemma {:induction false} DocumentsStay(w: World, e: Event, org: string)
    requires !e.NextMonth?
    ensures Next(w, e).clock == w.clock
    ensures Usage(w.rows, org, PeppolDocuments, w.clock) <= Usage(Next(w, e).rows, org, PeppolDocuments, w.clock)
  {
    hide Creatable, Exhausted, Used, LimitOf, Unlocked;
    if e.Remove? {
      PeppolSurvives(w, e, org);
    }
  }

  lemma {:induction false} FreeStays(w: World, e: Event, s: Session)
    requires s in w.sessions && w.sessions[s].Free? && e != Write(s) && e != Release(s)
    ensures s in Next(w, e).sessions && Next(w, e).sessions[s] == w.sessions[s]
  {
    hide Creatable, Exhausted, Used, LimitOf, Unlocked, Usage;
  }

  /** Whatever anybody else does, a request that was found free stays so until it writes, however many
      months go by. */
  lemma {:induction false} FreeIsNeverTakenAway(w: World, es: seq<Event>, s: Session)
    requires s in w.sessions && w.sessions[s].Free?
    requires forall i :: 0 <= i < |es| ==> es[i] != Write(s) && es[i] != Release(s)
    ensures s in Unfold(w, es).sessions && Unfold(w, es).sessions[s] == w.sessions[s]
  {
    hide Next;
    if es != [] {
      FreeIsNeverTakenAway(w, es[..|es| - 1], s);
      FreeStays(Unfold(w, es[..|es| - 1]), es[|es| - 1], s);
    }
  }

  lemma {:induction false} CountedStays(w: World, es: seq<Event>, s: Session, org: string)
    requires Elsewhere(es, s)
    ensures Unfold(w, es).clock == w.clock
    ensures Usage(w.rows, org, PeppolDocuments, w.clock) <= Usage(Unfold(w, es).rows, org, PeppolDocuments, w.clock)
  {
    hide Next, Usage;
    if es != [] {
      CountedStays(w, es[..|es| - 1], s, org);
      DocumentsStay(Unfold(w, es[..|es| - 1]), es[|es| - 1], org);
    }
  }

  /** The write of a free request: an audit entry without the lock. It takes a slot if and only if this
      month has not counted the invoice. */
  lemma {:induction false} FreeWrite(w: World, s: Session)
    requires s in w.sessions && w.sessions[s].Free?
    ensures var x, end := w.sessions[s].target, Next(w, Write(s));
            && Row(s.org, PeppolDocuments, w.clock, x) in end.rows && end.locks == w.locks && s !in end.sessions
            && (forall org: string, m: Meter :: org != s.org || m != PeppolDocuments ==> Used(end, org, m) == Used(w, org, m))
            && Used(end, s.org, PeppolDocuments)
               == Used(w, s.org, PeppolDocuments) + if x in Usage(w.rows, s.org, PeppolDocuments, w.clock) then 0 else 1
  {
    var row, end := Row(s.org, PeppolDocuments, w.clock, w.sessions[s].target), Next(w, Write(s));
    assert end.rows == w.rows + {row};
    UsageOfOne(w.rows, row, s.org, PeppolDocuments, w.clock);
    forall org: string, m: Meter | org != s.org || m != PeppolDocuments ensures Used(end, org, m) == Used(w, org, m) {
      UsageOfOne(w.rows, row, org, m, w.clock);
    }
    hide Usage;
  }

  /** Exporting again an invoice that this month has counted is free, whatever happens between its
      look-up and its write and however full the allowance is by then: it is never refused, waits for
      no lock and raises no count, as long as the month lasts. */
  lemma {:induction false} ReexportIsFree(w: World, es: seq<Event>, s: Session, invoice: string)
    requires s !in w.sessions && invoice in Usage(w.rows, s.org, PeppolDocuments, w.clock) && Elsewhere(es, s)
    ensures var before := Unfold(Next(w, Arrive(s, PeppolDocuments, invoice)), es);
            var end := Next(before, Write(s));
            && s in before.sessions && before.sessions[s] == Free(invoice)
            && Row(s.org, PeppolDocuments, w.clock, invoice) in end.rows && end.locks == before.locks
            && forall org: string, m: Meter :: Used(end, org, m) == Used(before, org, m)
  {
    var arrived := Next(w, Arrive(s, PeppolDocuments, invoice));
    assert arrived == w.(sessions := w.sessions[s := Free(invoice)]);
    hide Next, Usage, Used, Unfold;
    FreeIsNeverTakenAway(arrived, es, s);
    CountedStays(arrived, es, s, s.org);
    FreeWrite(Unfold(arrived, es), s);
  }

  // ------------------------------------------------------------------ who is refused

  /** The request is answered 402 by its check. */
  predicate Refuses(w: World, s: Session) {
    s in w.sessions && s !in Next(w, Check(s)).sessions
  }

  predicate AtItsCheck(w: World, s: Session) {
    s in w.sessions && w.sessions[s].Locked?
  }

  /** Where a Peppol request can be while it has not written. */
  ghost predicate OnItsWay(w: World, s: Session, invoice: string, found: bool) {
    if found then s in w.sessions && w.sessions[s] == Free(invoice)
    else s in w.sessions ==>
      w.sessions[s] in [Waiting(PeppolDocuments, invoice), Locked(PeppolDocuments, invoice)]
      || (w.sessions[s].Passed? && w.sessions[s].meter == PeppolDocuments)
  }

  predicate NotItsOwn(e: Event, s: Session) {
    e != Write(s) && e != Release(s) && !(e.Arrive? && e.s == s)
  }

  lemma {:induction false} StaysOnItsWay(w: World, e: Event, s: Session, invoice: string, found: bool)
    requires OnItsWay(w, s, invoice, found) && NotItsOwn(e, s)
    ensures OnItsWay(Next(w, e), s, invoice, found)
  {
    hide Usage, Creatable, Exhausted, Used, LimitOf, Unlocked;
  }

  lemma {:induction false} UnfoldOnItsWay(w: World, es: seq<Event>, s: Session, invoice: string, found: bool)
    requires OnItsWay(w, s, invoice, found) && forall i :: 0 <= i < |es| ==> NotItsOwn(es[i], s)
    ensures OnItsWay(Unfold(w, es), s, invoice, found)
  {
    hide Next, OnItsWay, NotItsOwn;
    if es != [] {
      UnfoldOnItsWay(w, es[..|es| - 1], s, invoice, found);
      StaysOnItsWay(Unfold(w, es[..|es| - 1]), es[|es| - 1], s, invoice, found);
    }
  }

  /** Over every interleaving, month ends and plan changes included: a Peppol request is refused if and
      only if its look-up did not find the invoice and the allowance is spent when it is checked. What
      was exported in between, the same invoice by another session included, does not matter. */
  lemma {:induction false} RefusedIff(w: World, es: seq<Event>, s: Session, invoice: string)
    requires s !in w.sessions && forall i :: 0 <= i < |es| ==> NotItsOwn(es[i], s)
    ensures var v := Unfold(Next(w, Arrive(s, PeppolDocuments, invoice)), es);
            Refuses(v, s) <==>
              && invoice !in Usage(w.rows, s.org, PeppolDocuments, w.clock)
              && AtItsCheck(v, s) && Exhausted(Used(v, s.org, PeppolDocuments), LimitOf(v, s.org, PeppolDocuments))
  {
    var arrived := Next(w, Arrive(s, PeppolDocuments, invoice));
    hide Usage, Used, LimitOf, Unlocked, Unfold, Exhausted;
    var found := invoice in Usage(w.rows, s.org, PeppolDocuments, w.clock);
    assert OnItsWay(arrived, s, invoice, found);
    UnfoldOnItsWay(arrived, es, s, invoice, found);
  }

  /** So two first exports of one invoice with one slot left: the second is refused, although by then
      the invoice has its slot. */
  lemma {:induction false} RacingReexportIsRefused(w: World, a: Session, b: Session, invoice: string)
    requires LocksOk(w) && a != b && a.org == b.org && a.org !in w.locks
    requires a in w.sessions && w.sessions[a] == Waiting(PeppolDocuments, invoice)
    requires b in w.sessions && w.sessions[b] == Waiting(PeppolDocuments, invoice)
    requires invoice !in Usage(w.rows, a.org, PeppolDocuments, w.clock)
    requires LimitOf(w, a.org, PeppolDocuments) == Some(Used(w, a.org, PeppolDocuments) + 1)
    ensures var exported := Next(Next(Next(Next(w, Acquire(a)), Check(a)), Write(a)), Release(a));
            && invoice in Usage(exported.rows, b.org, PeppolDocuments, exported.clock)
            && Refuses(Next(exported, Acquire(b)), b)
  {
    var row := Row(a.org, PeppolDocuments, w.clock, invoice);
    UsageOfOne(w.rows, row, a.org, PeppolDocuments, w.clock);
    hide Usage, LocksOk, IsFlow;
    var locked := Next(w, Acquire(a));
    assert Used(locked, a.org, PeppolDocuments) == Used(w, a.org, PeppolDocuments);
    var checked := Next(locked, Check(a));
    assert checked.sessions[a].Passed? && checked.rows == w.rows;
    var written := Next(checked, Write(a));
    assert written.rows == w.rows + {row};
    var exported := Next(written, Release(a));
    assert exported.locks == w.locks;
    assert Used(exported, b.org, PeppolDocuments) == Used(w, a.org, PeppolDocuments) + 1;
  }

  // ------------------------------------------------------------------ the end of a month

  /** One whole guarded export. */
  function Export(b: Session, invoice: string): seq<Event> {
    [Arrive(b, PeppolDocuments, invoice), Acquire(b), Check(b), Write(b), Release(b)]
  }

  /** The allowance of the month has j documents in it, none of them x, while a free export of x is
      still to be written; b is a session nobody uses. */
  ghost predicate Filling(w: World, a: Session, b: Session, x: string, limit: nat, j: nat) {
    && a in w.sessions && w.sessions[a] == Free(x) && b !in w.sessions && a.org == b.org && a.org !in w.locks
    && LimitOf(w, a.org, PeppolDocuments) == Some(limit) && Used(w, a.org, PeppolDocuments) == j
    && forall t :: t in Usage(w.rows, a.org, PeppolDocuments, w.clock) ==> t != x && |t| <= |x| + j
  }

  /** An invoice nobody has exported yet. */
  function Another(x: string, j: nat): (y: string)
    ensures |y| == |x| + j + 1
  {
    x + seq(j + 1, i => 'a')
  }

  lemma {:induction false} Snoc(w: World, es: seq<Event>, e: Event)
    ensures Unfold(w, es + [e]) == Next(Unfold(w, es), e)
  {
    hide Next;
    assert (es + [e])[..|es|] == es;
  }

  lemma {:induction false} FiveSteps(w: World, e0: Event, e1: Event, e2: Event, e3: Event, e4: Event)
    ensures Unfold(w, [e0, e1, e2, e3, e4]) == Next(Next(Next(Next(Next(w, e0), e1), e2), e3), e4)
  {
    hide Next;
    UnfoldOne(w, e0);
    Snoc(w, [e0], e1);
    Snoc(w, [e0, e1], e2);
    Snoc(w, [e0, e1, e2], e3);
    Snoc(w, [e0, e1, e2, e3], e4);
    hide Unfold;
    assert [e0, e1, e2, e3] + [e4] == [e0, e1, e2, e3, e4] && [e0, e1, e2] + [e3] == [e0, e1, e2, e3];
    assert [e0, e1] + [e2] == [e0, e1, e2] && [e0] + [e1] == [e0, e1];
  }

  /** Until its check, an export of an invoice not yet counted this month changes no row. */
  lemma {:induction false} CheckedExport(w: World, b: Session, y: string)
    requires b !in w.sessions && b.org !in w.locks && y !in Usage(w.rows, b.org, PeppolDocuments, w.clock)
    requires !Exhausted(Used(w, b.org, PeppolDocuments), LimitOf(w, b.org, PeppolDocuments))
    ensures Next(Next(Next(w, Arrive(b, PeppolDocuments, y)), Acquire(b)), Check(b))
         == w.(locks := w.locks[b.org := b.n],
               sessions := w.sessions[b := Passed(PeppolDocuments, y, LimitOf(w, b.org, PeppolDocuments))])
  {
    hide Usage, Exhausted;
    var arrived := Next(w, Arrive(b, PeppolDocuments, y));
    assert arrived == w.(sessions := w.sessions[b := Waiting(PeppolDocuments, y)]);
    var locked := Next(arrived, Acquire(b));
    assert locked == w.(locks := w.locks[b.org := b.n], sessions := w.sessions[b := Locked(PeppolDocuments, y)]);
    assert Used(locked, b.org, PeppolDocuments) == Used(w, b.org, PeppolDocuments);
    assert Next(locked, Check(b)).sessions == w.sessions[b := Passed(PeppolDocuments, y, LimitOf(w, b.org, PeppolDocuments))];
  }

  lemma {:induction false} WrittenExport(w: World, b: Session, y: string, seen: Option<nat>)
    requires b !in w.sessions && b.org !in w.locks
    ensures Next(Next(w.(locks := w.locks[b.org := b.n], sessions := w.sessions[b := Passed(PeppolDocuments, y, seen)]), Write(b)), Release(b))
         == w.(rows := w.rows + {Row(b.org, PeppolDocuments, w.clock, y)})
  {
    hide Usage, Exhausted, Used, LimitOf;
    var checked := w.(locks := w.locks[b.org := b.n], sessions := w.sessions[b := Passed(PeppolDocuments, y, seen)]);
    var written := Next(checked, Write(b));
    assert written == checked.(rows := w.rows + {Row(b.org, PeppolDocuments, w.clock, y)}, sessions := checked.sessions[b := Written(PeppolDocuments)]);
    assert checked.locks - {b.org} == w.locks && written.sessions - {b} == w.sessions;
  }

  lemma {:induction false} WholeExport(w: World, b: Session, y: string)
    requires b !in w.sessions && b.org !in w.locks && y !in Usage(w.rows, b.org, PeppolDocuments, w.clock)
    requires !Exhausted(Used(w, b.org, PeppolDocuments), LimitOf(w, b.org, PeppolDocuments))
    ensures Unfold(w, Export(b, y)) == w.(rows := w.rows + {Row(b.org, PeppolDocuments, w.clock, y)})
  {
    FiveSteps(w, Arrive(b, PeppolDocuments, y), Acquire(b), Check(b), Write(b), Release(b));
    CheckedExport(w, b, y);
    WrittenExport(w, b, y, LimitOf(w, b.org, PeppolDocuments));
    hide Next, Usage, Unfold, Used;
  }

  lemma {:induction false} FillOne(w: World, a: Session, b: Session, x: string, limit: nat, j: nat)
    requires Filling(w, a, b, x, limit, j) && j < limit
    ensures Filling(Unfold(w, Export(b, Another(x, j))), a, b, x, limit, j + 1)
  {
    var y := Another(x, j);
    assert y !in Usage(w.rows, b.org, PeppolDocuments, w.clock);
    WholeExport(w, b, y);
    UsageOfOne(w.rows, Row(b.org, PeppolDocuments, w.clock, y), b.org, PeppolDocuments, w.clock);
    hide Usage, Unfold, Export, Another, IsFlow;
  }

  lemma {:induction false} Fill(w: World, a: Session, b: Session, x: string, limit: nat, j: nat) returns (es: seq<Event>)
    requires Filling(w, a, b, x, limit, j) && j <= limit
    ensures Calm(es) && Filling(Unfold(w, es), a, b, x, limit, limit)
    decreases limit - j
  {
    hide Filling, Another;
    if j == limit {
      es := [];
    } else {
      var first := Export(b, Another(x, j));
      FillOne(w, a, b, x, limit, j);
      var rest := Fill(Unfold(w, first), a, b, x, limit, j + 1);
      UnfoldAppend(w, first, rest);
      es := first + rest;
    }
  }

  lemma {:induction false} AboveAll(ns: set<nat>) returns (n: nat)
    ensures forall k :: k in ns ==> k < n
  {
    if ns == {} {
      n := 0;
    } else {
      var m :| m in ns;
      var rest := AboveAll(ns - {m});
      n := if m < rest then rest else m + 1;
      assert forall k :: k in ns ==> k == m || k in ns - {m};
    }
  }

  lemma {:induction false} NewSession(w: World, org: string) returns (b: Session)
    ensures b.org == org && b !in w.sessions
  {
    var ns := set s | s in w.sessions :: s.n;
    var n := AboveAll(ns);
    b := Session(org, n);
    assert b in w.sessions ==> b.n in ns;
  }

  /** Whoever holds the lock can let go of it. */
  lemma {:induction false} LockFreed(w: World, org: string, a: Session) returns (es: seq<Event>)
    requires LocksOk(w) && a in w.sessions && w.sessions[a].Free?
    ensures Calm(es) && org !in Unfold(w, es).locks && a in Unfold(w, es).sessions && Unfold(w, es).sessions[a] == w.sessions[a]
    ensures Unfold(w, es).rows == w.rows && Unfold(w, es).clock == w.clock && Unfold(w, es).limits == w.limits
  {
    if org in w.locks {
      var s := Session(org, w.locks[org]);
      assert s in w.sessions && Holding(w.sessions[s]);
      es := [Release(s)];
      UnfoldOne(w, Release(s));
    } else {
      es := [];
    }
  }

  /** Requests and month ends that find no free re-export unwritten can take the organization over. */
  ghost predicate Overruns(w: World, es: seq<Event>, org: string) {
    && AllGuarded(w, es, PeppolDocuments, org) && AllKeepPlan(es, PeppolDocuments, org)
    && !Within(Unfold(w, es), PeppolDocuments, org)
  }

  ghost predicate CanOverrun(w: World, org: string) {
    exists es :: Overruns(w, es, org)
  }

  /** A free export whose invoice the month has not counted: fill the month up, then let it write. */
  lemma {:induction false} StaleFreeOverruns(w: World, a: Session, limit: nat)
    requires LocksOk(w) && a in w.sessions && w.sessions[a].Free?
    requires Usage(w.rows, a.org, PeppolDocuments, w.clock) == {} && LimitOf(w, a.org, PeppolDocuments) == Some(limit)
    ensures CanOverrun(w, a.org)
  {
    hide Unfold, Next, Overruns, AllGuarded, AllKeepPlan, Usage;
    var x := w.sessions[a].target;
    var unlock := LockFreed(w, a.org, a);
    var v := Unfold(w, unlock);
    var b := NewSession(v, a.org);
    assert Filling(v, a, b, x, limit, 0);
    var fill := Fill(v, a, b, x, limit, 0);
    var full := Unfold(v, fill);
    FreeWrite(full, a);
    var es := (unlock + fill) + [Write(a)];
    UnfoldAppend(w, unlock, fill);
    UnfoldAppend(w, unlock + fill, [Write(a)]);
    UnfoldOne(full, Write(a));
    CalmIsGuarded(w, es, PeppolDocuments, a.org);
    OverranBy(w, es, a, limit);
  }

  lemma {:induction false} OverranBy(w: World, es: seq<Event>, a: Session, limit: nat)
    requires AllGuarded(w, es, PeppolDocuments, a.org) && AllKeepPlan(es, PeppolDocuments, a.org)
    requires LimitOf(w, a.org, PeppolDocuments) == Some(limit) && Used(Unfold(w, es), a.org, PeppolDocuments) > limit
    ensures Overruns(w, es, a.org)
  {
    hide Unfold, AllGuarded, Used;
    SameLimit(w, es, a.org);
  }

  lemma {:induction false} SameLimit(w: World, es: seq<Event>, org: string)
    requires AllKeepPlan(es, PeppolDocuments, org)
    ensures LimitOf(Unfold(w, es), org, PeppolDocuments) == LimitOf(w, org, PeppolDocuments)
  {
    hide Next, LimitOf;
    if es != [] {
      SameLimit(w, es[..|es| - 1], org);
      LimitKept(Unfold(w, es[..|es| - 1]), es[|es| - 1], org);
    }
  }

  lemma {:induction false} LimitKept(w: World, e: Event, org: string)
    requires KeepsPlan(e, PeppolDocuments, org)
    ensures LimitOf(Next(w, e), org, PeppolDocuments) == LimitOf(w, org, PeppolDocuments)
  {
    hide Usage, Used, Creatable, Exhausted, Unlocked;
  }

  /** The exact price of ending a month: from a state the protocol maintains, for every limit, the
      organization can be taken over its allowance after the month's end if and only if one of its free
      re-exports was still unwritten when the month ended. */
  lemma {:induction false} MonthEndOverrunsIff(w: World, org: string)
    requires MeterOk(w, PeppolDocuments, org) && SeenIsCurrent(w, PeppolDocuments, org) && Within(w, PeppolDocuments, org)
    requires LimitOf(w, org, PeppolDocuments).Some?
    ensures CanOverrun(Next(w, NextMonth), org) <==> FreePending(w, org)
  {
    var turned := Next(w, NextMonth);
    PeriodsPast(w);
    UsageNextMonth(w.rows, org, PeppolDocuments, w.clock);
    NextKeepsLocks(w, NextMonth);
    assert turned.sessions == w.sessions && turned.limits == w.limits;
    hide LocksOk, Usage, Next;
    if FreePending(w, org) {
      var a :| a in w.sessions && a.org == org && w.sessions[a].Free?;
      StaleFreeOverruns(turned, a, LimitOf(w, org, PeppolDocuments).value);
    } else {
      hide MeterOk, Within, SeenIsCurrent, Unfold, FreePending;
      assert Guarded(w, NextMonth, PeppolDocuments, org);
      NextKeepsMeter(w, NextMonth, PeppolDocuments, org);
      NextKeepsSeen(w, NextMonth, PeppolDocuments, org);
      NextKeepsWithin(w, NextMonth, PeppolDocuments, org);
      forall es ensures !Overruns(turned, es, org) {
        if Overruns(turned, es, org) {
          UnfoldKeepsWithin(turned, es, PeppolDocuments, org);
        }
      }
    }
  }
}
