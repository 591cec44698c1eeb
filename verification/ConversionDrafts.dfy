// core/services/quote_service.py:213-268: how many drafts the conversions of one quote leave behind,
// over every interleaving, and exactly when it is more than one.
module ConversionDrafts {
  import opened Common
  import opened Calendar
  import opened Money
  import opened CurrencyMath
  import opened Numbering
  import opened Store
  import opened Transactions
  import opened Frames
  import opened LedgerInvariant
  import opened LedgerHistory
  import opened Conversion

  // ------------------------------------------------------------------ the guard of the second transaction

  predicate IsAccepted(s: Store, q: Id) {
    q in s.quotes && s.quotes[q].status.Accepted?
  }

  /** The second transaction of a conversion links its draft to the quote if and only if the quote is
      still there and still accepted; otherwise it is refused and the draft stays behind. */
  lemma {:induction false} MarkTakesIff(w: World, pid: nat)
    requires pid in w.running && w.running[pid].HasDrafted?
    ensures var q, s' := w.running[pid].quoteId, Next(w, ConvertMark(pid)).store;
            && (!IsConverted(w.store, q) && IsConverted(s', q) <==> IsAccepted(w.store, q))
            && (IsAccepted(w.store, q) ==> s'.quotes[q].convertedInvoiceId == Some(w.running[pid].invoiceId))
            && (!IsAccepted(w.store, q) ==> s' == w.store)
  {
    hide CreateDraft, ConversionRequest;
  }

  // ------------------------------------------------------------------ drafts, along a run

  predicate DraftsOf(w: World, pid: nat, q: Id) {
    pid in w.running && w.running[pid].HasDrafted? && w.running[pid].quoteId == q
  }

  predicate ReadsOf(w: World, pid: nat, q: Id) {
    pid in w.running && w.running[pid].HasRead? && w.running[pid].quoteId == q
  }

  /** The event commits a draft for a conversion of q. */
  predicate CommitsDraft(w: World, e: Event, q: Id) {
    e.ConvertDraft? && ReadsOf(w, e.pid, q) && DraftsOf(Next(w, e), e.pid, q)
  }

  /** How many drafts conversions of q commit. */
  function Drafts(w: World, es: seq<Event>, q: Id): nat {
    if es == [] then 0
    else
      var before := Unfold(w, es[..|es| - 1]);
      Drafts(w, es[..|es| - 1], q) + if CommitsDraft(before, es[|es| - 1], q) then 1 else 0
  }

  predicate Converts(w: World, e: Event, q: Id) {
    !IsConverted(w.store, q) && IsConverted(Next(w, e).store, q)
  }

  /** A conversion of q that had its draft ends without the quote turning: by a crash, or because its
      mark is refused. */
  predicate Abandons(w: World, e: Event, q: Id) {
    (e.Crash? || e.ConvertMark?) && DraftsOf(w, e.pid, q) && !Converts(w, e, q)
  }

  function Abandoned(w: World, es: seq<Event>, q: Id): nat {
    if es == [] then 0
    else
      var before := Unfold(w, es[..|es| - 1]);
      Abandoned(w, es[..|es| - 1], q) + if Abandons(before, es[|es| - 1], q) then 1 else 0
  }

  /** Conversions of q between their two transactions. */
  function Unmarked(w: World, q: Id): set<nat> {
    set pid | pid in w.running && DraftsOf(w, pid, q)
  }

  lemma {:induction false} OnlyMarksConvert(w: World, e: Event, q: Id)
    requires Converts(w, e, q)
    ensures e.ConvertMark? && DraftsOf(w, e.pid, q)
  {
    hide Step, CreateDraft;
    EventIsOneTransaction(w, e);
    match TransactionOf(w, e)
    case None =>
    case Some(c) =>
      if !IsMark(c) || c.id != q {
        UnmarkedStaysUnconverted(w.store, c, q);
      }
  }

  /** What one event does to the conversions between their two transactions. */
  lemma {:induction false} UnmarkedAfter(w: World, e: Event, q: Id)
    ensures Unmarked(Next(w, e), q)
         == if CommitsDraft(w, e, q) then Unmarked(w, q) + {e.pid}
            else if (e.Crash? || e.ConvertMark?) && DraftsOf(w, e.pid, q) then Unmarked(w, q) - {e.pid}
            else Unmarked(w, q)
    ensures CommitsDraft(w, e, q) ==> e.pid !in Unmarked(w, q)
    ensures (e.Crash? || e.ConvertMark?) && DraftsOf(w, e.pid, q) ==> e.pid in Unmarked(w, q)
  {
    hide Step, CreateDraft, ConversionRequest;
  }

  lemma {:induction false} EventBalances(w: World, e: Event, q: Id)
    ensures |Unmarked(w, q)| + (if CommitsDraft(w, e, q) then 1 else 0)
         == |Unmarked(Next(w, e), q)| + (if Converts(w, e, q) then 1 else 0) + if Abandons(w, e, q) then 1 else 0
  {
    UnmarkedAfter(w, e, q);
    if Converts(w, e, q) {
      OnlyMarksConvert(w, e, q);
    }
    hide Next, DraftsOf, ReadsOf, Unmarked;
  }

  /** Every draft a conversion commits is, at the end of any run, the one the quote turned on, or one
      still waiting for its mark, or one left behind by a crash or a refused mark. */
  lemma {:induction false} DraftsAccountedFor(w: World, es: seq<Event>, q: Id)
    requires w.running == map[]
    ensures Drafts(w, es, q) == Conversions(w, es, q) + |Unmarked(Unfold(w, es), q)| + Abandoned(w, es, q)
  {
    hide Next, CommitsDraft, Abandons, IsConverted;
    if es == [] {
      assert Unmarked(w, q) == {};
    } else {
      DraftsAccountedFor(w, es[..|es| - 1], q);
      EventBalances(Unfold(w, es[..|es| - 1]), es[|es| - 1], q);
      hide Unmarked;
    }
  }

  /** So the orphans, the drafts the quote does not point at, are the committed ones minus one if the
      quote was converted: the ones waiting and the ones left behind. */
  lemma {:induction false} OrphanDrafts(w: World, es: seq<Event>, q: Id)
    requires Inv(w.store) && w.running == map[] && !IsConverted(w.store, q)
    ensures Drafts(w, es, q) - (if IsConverted(Unfold(w, es).store, q) then 1 else 0)
         == |Unmarked(Unfold(w, es), q)| + Abandoned(w, es, q)
  {
    hide Inv, Unmarked, Drafts, Abandoned, IsConverted, Unfold, Conversions;
    DraftsAccountedFor(w, es, q);
    ConvertedAtMostOnce(w, es, q);
    if IsConverted(Unfold(w, es).store, q) {
      ConvertedWasCounted(w, es, q);
    }
  }

  lemma {:induction false} ConvertedWasCounted(w: World, es: seq<Event>, q: Id)
    requires !IsConverted(w.store, q) && IsConverted(Unfold(w, es).store, q)
    ensures Conversions(w, es, q) >= 1
  {
    hide Next;
    if es != [] && IsConverted(Unfold(w, es[..|es| - 1]).store, q) {
      ConvertedWasCounted(w, es[..|es| - 1], q);
    }
  }

  // ------------------------------------------------------------------ a quote that has been offered stays decided

  /** Once accepted, a quote is accepted or converted for as long as it is there, and never comes back. */
  ghost predicate Offered(s: Store, q: Id) {
    q in s.usedIds && (q in s.quotes ==> s.quotes[q].status.Accepted? || s.quotes[q].status.Converted?)
  }

  /** Converted or deleted. */
  ghost predicate Settled(s: Store, q: Id) {
    q in s.usedIds && !IsAccepted(s, q) && Offered(s, q)
  }

  lemma {:induction false} StepKeepsOffered(s: Store, c: Command, q: Id)
    requires Inv(s) && Offered(s, q)
    ensures Offered(Step(s, c), q) && (Settled(s, q) ==> Settled(Step(s, c), q))
  {
    hide Inv, Step, Later;
    QuoteComesNotBack(s, c, q);
    if q in Step(s, c).quotes {
      StatusKept(s, c, q);
    }
  }

  /** Identifiers are not used twice, so a deleted quote stays away. */
  lemma {:induction false} QuoteComesNotBack(s: Store, c: Command, q: Id)
    requires Inv(s) && q in s.usedIds
    ensures q in Step(s, c).usedIds && (q in Step(s, c).quotes ==> q in s.quotes)
  {
    hide Inv, Step, InvoiceKept;
    StepIsLater(s, c);
  }

  /** No command takes an accepted quote anywhere but to converted. */
  lemma {:induction false} StatusKept(s: Store, c: Command, q: Id)
    requires q in s.quotes && q in Step(s, c).quotes && q in s.usedIds
    requires s.quotes[q].status.Accepted? || s.quotes[q].status.Converted?
    ensures Step(s, c).quotes[q].status == s.quotes[q].status
         || (s.quotes[q].status.Accepted? && Step(s, c).quotes[q].status.Converted?)
  {
    StepFrame(s, c);
    hide QuoteReference, QuoteKeyTaken, NewQuote, ValidRequest, ValidTotals;
    hide AddCompany, UpdateCompany, AddClient, UpdateClient, CreateDraft, Duplicate, DeleteDraft, IssueInvoice, VoidInvoice,
         IssueCreditNote, RecordPayment;
  }

  /** The parties of an offer stay: companies and clients are never deleted nor moved. */
  lemma {:induction false} PartiesStay(s: Store, c: Command, companyId: Id, clientId: Id)
    requires Inv(s) && PartiesExist(s.companies, s.clients, companyId, clientId)
    ensures PartiesExist(Step(s, c).companies, Step(s, c).clients, companyId, clientId)
  {
    StepFrame(s, c);
    IdsOfInv(s);
    hide Inv;
    if PartyCommand(c) {
      PartiesOnlyChange(s, c, companyId, clientId);
    }
    hide Step, IdsOk;
  }

  lemma {:induction false} PartiesOnlyChange(s: Store, c: Command, companyId: Id, clientId: Id)
    requires IdsOk(s) && PartyCommand(c) && PartiesExist(s.companies, s.clients, companyId, clientId)
    ensures PartiesExist(Step(s, c).companies, Step(s, c).clients, companyId, clientId)
  {
    hide CreateDraft, DeleteDraft, IssueInvoice, VoidInvoice, IssueCreditNote, RecordPayment, CreateQuote, TransitionQuote, DeleteQuote,
         Duplicate;
  }

  // ------------------------------------------------------------------ every interleaving

  /** What every conversion in flight has read is an offer the ledger could still draft. */
  ghost predicate FlightOk(s: Store, st: Stage) {
    Offered(s, st.quoteId) && QuoteOk(s.companies, s.clients, st.quote)
  }

  ghost predicate FlightsOk(w: World) {
    WorldOk(w) && forall pid :: pid in w.running ==> FlightOk(w.store, w.running[pid])
  }

  lemma {:induction false} FlightKept(s: Store, c: Command, st: Stage)
    requires Inv(s) && FlightOk(s, st)
    ensures FlightOk(Step(s, c), st)
  {
    hide Inv, Step, PartiesExist, SoundLines, TotalsFrozen, Offered;
    StepKeepsOffered(s, c, st.quoteId);
    PartiesStay(s, c, st.quote.companyId, st.quote.clientId);
  }

  lemma {:induction false} ReadFlightOk(s: Store, q: Id)
    requires Inv(s) && IsAccepted(s, q)
    ensures FlightOk(s, HasRead(q, s.quotes[q]))
  {
    hide Inv;
    StoreQuotes(s);
    QuoteIds(s);
    hide PartiesExist, SoundLines, TotalsFrozen;
  }

  /** The conversion goes on, with what it has read. */
  ghost predicate StillFlying(w: World, e: Event, pid: nat) {
    && pid in w.running && pid in Next(w, e).running
    && Next(w, e).running[pid].quoteId == w.running[pid].quoteId && Next(w, e).running[pid].quote == w.running[pid].quote
    && (w.running[pid].HasDrafted? ==> Next(w, e).running[pid].HasDrafted?)
  }

  /** Whoever is in flight after an event was there before it with the same offer, or has just read it. */
  lemma {:induction false} FlightsAfter(w: World, e: Event, pid: nat)
    requires pid in Next(w, e).running
    ensures StillFlying(w, e, pid)
         || (e.ConvertRead? && e.pid == pid && pid !in w.running && IsAccepted(w.store, e.quoteId)
             && Next(w, e).running[pid] == HasRead(e.quoteId, w.store.quotes[e.quoteId]) && Next(w, e).store == w.store)
  {
    hide CreateDraft, Step, ConversionRequest;
  }

  lemma {:induction false} NextKeepsFlights(w: World, e: Event)
    requires FlightsOk(w)
    ensures FlightsOk(Next(w, e))
  {
    hide WorldOk, FlightOk, Next;
    NextKeepsWorld(w, e);
    forall pid | pid in Next(w, e).running ensures FlightOk(Next(w, e).store, Next(w, e).running[pid]) {
      NextKeepsFlight(w, e, pid);
    }
  }

  lemma {:induction false} NextKeepsFlight(w: World, e: Event, pid: nat)
    requires WorldOk(w) && (pid in w.running ==> FlightOk(w.store, w.running[pid])) && pid in Next(w, e).running
    ensures FlightOk(Next(w, e).store, Next(w, e).running[pid])
  {
    assert Inv(w.store);
    hide WorldOk, Inv, Next, Step, TransactionOf, IsAccepted, QuoteOk, Offered;
    EventIsOneTransaction(w, e);
    FlightsAfter(w, e, pid);
    if pid in w.running {
      match TransactionOf(w, e)
      case None =>
      case Some(c) => FlightKept(w.store, c, w.running[pid]);
    } else {
      ReadFlightOk(w.store, e.quoteId);
    }
  }

  lemma {:induction false} UnfoldKeepsFlights(w: World, es: seq<Event>)
    requires FlightsOk(w)
    ensures FlightsOk(Unfold(w, es))
  {
    hide FlightsOk, Next;
    if es != [] {
      UnfoldKeepsFlights(w, es[..|es| - 1]);
      NextKeepsFlights(Unfold(w, es[..|es| - 1]), es[|es| - 1]);
    }
  }

  lemma {:induction false} EventKeepsSettled(w: World, e: Event, q: Id)
    requires Inv(w.store) && Settled(w.store, q)
    ensures Settled(Next(w, e).store, q)
  {
    EventIsOneTransaction(w, e);
    hide Inv, Next, Step, TransactionOf, Settled;
    match TransactionOf(w, e)
    case None =>
    case Some(c) =>
      assert Offered(w.store, q) by { SettledIsOffered(w.store, q); }
      StepKeepsOffered(w.store, c, q);
  }

  lemma {:induction false} SettledIsOffered(s: Store, q: Id)
    requires Settled(s, q)
    ensures Offered(s, q) && !IsAccepted(s, q)
  {
  }

  // ------------------------------------------------------------------ two drafts in one run

  /** The world that event k of the run finds. */
  function At(w: World, es: seq<Event>, k: int): World
    requires 0 <= k <= |es|
  {
    Unfold(w, es[..k])
  }

  /** The i-th event of the run commits a draft for a conversion of q. */
  ghost predicate DraftAt(w: World, es: seq<Event>, q: Id, i: int) {
    0 <= i < |es| && CommitsDraft(At(w, es, i), es[i], q)
  }

  /** Process pid is in flight in every world after event a, up to the one event b finds. */
  ghost predicate InFlight(w: World, es: seq<Event>, pid: nat, a: int, b: int)
    requires 0 <= a <= b <= |es|
  {
    forall k :: a < k <= b ==> pid in At(w, es, k).running
  }

  /** The conversion of q that process pid carries when event b comes was begun by event r. */
  ghost predicate Began(w: World, es: seq<Event>, pid: nat, q: Id, r: int, b: int) {
    && 0 <= r < b <= |es| && es[r] == ConvertRead(pid, q) && IsAccepted(At(w, es, r).store, q)
    && pid !in At(w, es, r).running && InFlight(w, es, pid, r, b)
  }

  /** Process pid crashes with a draft of q that it has not marked. */
  ghost predicate CrashesDrafted(w: World, es: seq<Event>, pid: nat, q: Id, c: int) {
    0 <= c < |es| && es[c] == Crash(pid) && DraftsOf(At(w, es, c), pid, q)
  }

  /** The conversion that drafts at event j read the quote while the one that drafts at event i was in
      flight, or after that one had crashed between its draft and its mark. */
  ghost predicate ReadTooEarly(w: World, es: seq<Event>, q: Id, i: int, j: int)
    requires DraftAt(w, es, q, i) && DraftAt(w, es, q, j)
  {
    exists ri, rj ::
      && Began(w, es, es[i].pid, q, ri, i) && Began(w, es, es[j].pid, q, rj, j) && ri < rj
      && (InFlight(w, es, es[i].pid, ri, rj) || exists c :: CrashesAfter(w, es, q, i, c) && c < rj)
  }

  /** The conversion that drafts at event i crashes at event c, before its mark. */
  ghost predicate CrashesAfter(w: World, es: seq<Event>, q: Id, i: int, c: int)
    requires DraftAt(w, es, q, i)
  {
    i < c && CrashesDrafted(w, es, es[i].pid, q, c) && InFlight(w, es, es[i].pid, i, c)
  }

  lemma {:induction false} PrefixOf(es: seq<Event>, n: int, k: int)
    requires 0 <= k <= n <= |es|
    ensures es[..n][..k] == es[..k]
  {
  }

  lemma {:induction false} UnfoldPrefix(w: World, es: seq<Event>, k: int)
    requires 0 <= k < |es|
    ensures At(w, es, k + 1) == Next(At(w, es, k), es[k])
  {
    hide Next;
    PrefixOf(es, k + 1, k);
  }

  /** Every conversion in flight was begun somewhere in the run. */
  lemma {:induction false} SomewhereBegun(w: World, es: seq<Event>, pid: nat, i: int) returns (r: int)
    requires w.running == map[] && 0 <= i <= |es| && pid in At(w, es, i).running
    ensures Began(w, es, pid, At(w, es, i).running[pid].quoteId, r, i)
    decreases i
  {
    hide Next;
    assert es[..0] == [];
    UnfoldPrefix(w, es, i - 1);
    var before := At(w, es, i - 1);
    FlightsAfter(before, es[i - 1], pid);
    hide At, Unfold;
    if pid in before.running {
      r := SomewhereBegun(w, es, pid, i - 1);
      assert InFlight(w, es, pid, r, i);
    } else {
      r := i - 1;
    }
  }

  // Counting the drafts is finding them.

  /** The drafts committed before event k. */
  function DraftsTo(w: World, es: seq<Event>, q: Id, k: int): nat
    requires 0 <= k <= |es|
  {
    Drafts(w, es[..k], q)
  }

  lemma {:induction false} DraftsSoFar(w: World, es: seq<Event>, q: Id, i: int)
    requires 0 <= i < |es|
    ensures DraftsTo(w, es, q, i + 1) == DraftsTo(w, es, q, i) + if DraftAt(w, es, q, i) then 1 else 0
  {
    hide CommitsDraft;
    PrefixOf(es, i + 1, i);
  }

  lemma {:induction false} NoDraftsYet(w: World, es: seq<Event>, q: Id)
    ensures DraftsTo(w, es, q, 0) == 0 && DraftsTo(w, es, q, |es|) == Drafts(w, es, q)
  {
    assert es[..0] == [] && es[..|es|] == es;
  }

  lemma {:induction false} DraftsGrow(w: World, es: seq<Event>, q: Id, i: int, j: int)
    requires 0 <= i <= j <= |es|
    ensures DraftsTo(w, es, q, i) <= DraftsTo(w, es, q, j)
    decreases j - i
  {
    hide *;
    if i < j {
      DraftsGrow(w, es, q, i, j - 1);
      DraftsSoFar(w, es, q, j - 1);
    }
  }

  lemma {:induction false} LastDraft(w: World, es: seq<Event>, q: Id, n: int) returns (i: int)
    requires 0 <= n <= |es| && DraftsTo(w, es, q, n) >= 1
    ensures i < n && DraftAt(w, es, q, i) && DraftsTo(w, es, q, i) == DraftsTo(w, es, q, n) - 1
    decreases n
  {
    hide *;
    NoDraftsYet(w, es, q);
    DraftsSoFar(w, es, q, n - 1);
    if DraftAt(w, es, q, n - 1) {
      i := n - 1;
    } else {
      i := LastDraft(w, es, q, n - 1);
    }
  }

  lemma {:induction false} TwoDraftsCount(w: World, es: seq<Event>, q: Id, i: int, j: int)
    requires i < j && DraftAt(w, es, q, i) && DraftAt(w, es, q, j)
    ensures Drafts(w, es, q) >= 2
  {
    hide *;
    InRange(w, es, q, i);
    InRange(w, es, q, j);
    DraftsSoFar(w, es, q, i);
    DraftsSoFar(w, es, q, j);
    DraftsGrow(w, es, q, i + 1, j);
    DraftsGrow(w, es, q, j + 1, |es|);
    NoDraftsYet(w, es, q);
  }

  lemma {:induction false} TwoDraftsAt(w: World, es: seq<Event>, q: Id)
    ensures Drafts(w, es, q) >= 2 <==> exists i, j :: i < j && DraftAt(w, es, q, i) && DraftAt(w, es, q, j)
  {
    hide *;
    if Drafts(w, es, q) >= 2 {
      NoDraftsYet(w, es, q);
      var j := LastDraft(w, es, q, |es|);
      InRange(w, es, q, j);
      var i := LastDraft(w, es, q, j);
    }
    forall i, j | i < j && DraftAt(w, es, q, i) && DraftAt(w, es, q, j) ensures Drafts(w, es, q) >= 2 {
      TwoDraftsCount(w, es, q, i, j);
    }
  }

  lemma {:induction false} InRange(w: World, es: seq<Event>, q: Id, i: int)
    requires DraftAt(w, es, q, i)
    ensures 0 <= i < |es| && es[i].ConvertDraft?
  {
  }

  lemma {:induction false} FlightsInv(w: World)
    requires FlightsOk(w)
    ensures Inv(w.store)
  {
  }

  /** A conversion that has its draft keeps it, crashes, or marks. */
  lemma {:induction false} DraftedMoves(w: World, e: Event, pid: nat, q: Id)
    requires DraftsOf(w, pid, q)
    ensures DraftsOf(Next(w, e), pid, q) || e == Crash(pid) || e == ConvertMark(pid)
  {
    hide CreateDraft, Step, ConversionRequest;
  }

  /** And a mark settles the quote, taken or refused. */
  lemma {:induction false} MarkSettles(w: World, pid: nat)
    requires FlightsOk(w) && pid in w.running && w.running[pid].HasDrafted?
    ensures Settled(Next(w, ConvertMark(pid)).store, w.running[pid].quoteId)
  {
    hide WorldOk, Inv, Next, Step, Offered, QuoteOk, IsAccepted, IsConverted;
    var q := w.running[pid].quoteId;
    assert Inv(w.store) && Offered(w.store, q) by { OneFlight(w, pid); }
    EventIsOneTransaction(w, ConvertMark(pid));
    StepKeepsOffered(w.store, DoTransition(q, MarkConverted(w.running[pid].invoiceId)), q);
    MarkTakesIff(w, pid);
    SettledNow(w.store, Next(w, ConvertMark(pid)).store, q);
  }

  lemma {:induction false} OneFlight(w: World, pid: nat)
    requires FlightsOk(w) && pid in w.running
    ensures Inv(w.store) && FlightOk(w.store, w.running[pid]) && PricedOffer(w.running[pid].quote)
  {
    hide Inv, FlightOk, PricedOffer, LinkOk, OffersPriced;
  }

  lemma {:induction false} SettledNow(s: Store, s': Store, q: Id)
    requires Offered(s', q)
    requires if IsAccepted(s, q) then IsConverted(s', q) else s' == s
    ensures Settled(s', q)
  {
  }

  /** What becomes of a conversion that has drafted, until some later event: it is still in flight, or it
      crashed, or its mark came and settled the quote. */
  ghost predicate Outcome(w: World, es: seq<Event>, q: Id, i: int, k: int)
    requires DraftAt(w, es, q, i) && i < k <= |es|
  {
    || (InFlight(w, es, es[i].pid, i, k) && DraftsOf(At(w, es, k), es[i].pid, q))
    || (exists c :: CrashesAfter(w, es, q, i, c) && c < k)
    || Settled(At(w, es, k).store, q)
  }

  lemma {:induction false} FirstOutcome(w: World, es: seq<Event>, q: Id, i: int)
    requires DraftAt(w, es, q, i)
    ensures Outcome(w, es, q, i, i + 1)
  {
    hide At, Unfold, Settled, Next;
    UnfoldPrefix(w, es, i);
  }

  lemma {:induction false} NextOutcome(w: World, es: seq<Event>, q: Id, i: int, k: int)
    requires DraftAt(w, es, q, i) && i < k < |es| && Outcome(w, es, q, i, k) && FlightsOk(At(w, es, k))
    ensures Outcome(w, es, q, i, k + 1)
  {
    hide At, Unfold, Settled, Next, FlightsOk, DraftsOf, CommitsDraft, InFlight, CrashesAfter;
    InRange(w, es, q, i);
    if Settled(At(w, es, k).store, q) {
      UnfoldPrefix(w, es, k);
      FlightsInv(At(w, es, k));
      EventKeepsSettled(At(w, es, k), es[k], q);
    } else if InFlight(w, es, es[i].pid, i, k) && DraftsOf(At(w, es, k), es[i].pid, q) {
      NextOfDrafted(w, es, q, i, k);
    }
  }

  lemma {:induction false} NextOfDrafted(w: World, es: seq<Event>, q: Id, i: int, k: int)
    requires DraftAt(w, es, q, i) && i < k < |es| && FlightsOk(At(w, es, k))
    requires InFlight(w, es, es[i].pid, i, k) && DraftsOf(At(w, es, k), es[i].pid, q)
    ensures Outcome(w, es, q, i, k + 1)
  {
    hide At, Unfold, Settled, Next, FlightsOk, DraftsOf, CommitsDraft, InFlight, DraftAt;
    InRange(w, es, q, i);
    var pid := es[i].pid;
    UnfoldPrefix(w, es, k);
    DraftedMoves(At(w, es, k), es[k], pid, q);
    if es[k] == Crash(pid) {
      assert CrashesAfter(w, es, q, i, k);
    } else if es[k] == ConvertMark(pid) {
      Drafted(At(w, es, k), pid, q);
      MarkSettles(At(w, es, k), pid);
    } else {
      Drafted(At(w, es, k + 1), pid, q);
      OneMore(w, es, pid, i, k);
    }
  }

  lemma {:induction false} OneMore(w: World, es: seq<Event>, pid: nat, a: int, k: int)
    requires 0 <= a <= k < |es| && InFlight(w, es, pid, a, k) && pid in At(w, es, k + 1).running
    ensures InFlight(w, es, pid, a, k + 1)
  {
    hide At;
  }

  lemma {:induction false} Drafted(w: World, pid: nat, q: Id)
    requires DraftsOf(w, pid, q)
    ensures pid in w.running && w.running[pid].HasDrafted? && w.running[pid].quoteId == q
  {
  }

  lemma {:induction false} FlightsAt(w: World, es: seq<Event>, k: int)
    requires FlightsOk(w) && 0 <= k <= |es|
    ensures FlightsOk(At(w, es, k))
  {
    hide FlightsOk, Unfold;
    UnfoldKeepsFlights(w, es[..k]);
  }

  lemma {:induction false} AfterDraft(w: World, es: seq<Event>, q: Id, i: int, k: int)
    requires FlightsOk(w) && DraftAt(w, es, q, i) && i < k <= |es|
    ensures Outcome(w, es, q, i, k)
    decreases k
  {
    hide At, Unfold, FlightsOk, CommitsDraft, Outcome;
    if k == i + 1 {
      FirstOutcome(w, es, q, i);
    } else {
      AfterDraft(w, es, q, i, k - 1);
      FlightsAt(w, es, k - 1);
      NextOutcome(w, es, q, i, k - 1);
    }
  }

  lemma {:induction false} InFlightJoined(w: World, es: seq<Event>, pid: nat, a: int, b: int, c: int)
    requires 0 <= a <= b <= c <= |es|
    ensures InFlight(w, es, pid, a, c) <==> InFlight(w, es, pid, a, b) && InFlight(w, es, pid, b, c)
  {
    hide At, Unfold;
  }

  lemma {:induction false} NotSettled(s: Store, q: Id)
    requires IsAccepted(s, q)
    ensures !Settled(s, q)
  {
  }

  /** The later read, given both. */
  lemma {:induction false} TooEarly(w: World, es: seq<Event>, q: Id, i: int, j: int, ri: int, rj: int)
    requires FlightsOk(w) && DraftAt(w, es, q, i) && DraftAt(w, es, q, j) && ri < rj
    requires Began(w, es, es[i].pid, q, ri, i) && Began(w, es, es[j].pid, q, rj, j)
    ensures ReadTooEarly(w, es, q, i, j)
  {
    InRange(w, es, q, i);
    hide At, Unfold, InFlight, FlightsOk, CommitsDraft, CrashesDrafted, IsAccepted;
    if rj <= i {
      InFlightJoined(w, es, es[i].pid, ri, rj, i);
    } else {
      AfterDraft(w, es, q, i, rj);
      InFlightJoined(w, es, es[i].pid, ri, i, rj);
      NotSettled(At(w, es, rj).store, q);
    }
  }

  /** Two conversions that both draft: the one that read later read too early. */
  lemma {:induction false} LaterReadIsTooEarly(w: World, es: seq<Event>, q: Id, i: int, j: int)
    requires FlightsOk(w) && w.running == map[] && i < j && DraftAt(w, es, q, i) && DraftAt(w, es, q, j)
    ensures ReadTooEarly(w, es, q, i, j) || ReadTooEarly(w, es, q, j, i)
  {
    hide *;
    InRange(w, es, q, i);
    InRange(w, es, q, j);
    var ri := BegunBy(w, es, q, i);
    var rj := BegunBy(w, es, q, j);
    NotTheSame(w, es, q, i, j, ri);
    if rj < ri {
      TooEarly(w, es, q, j, i, rj, ri);
    } else if ri < rj {
      TooEarly(w, es, q, i, j, ri, rj);
    }
  }

  lemma {:induction false} BegunBy(w: World, es: seq<Event>, q: Id, i: int) returns (r: int)
    requires w.running == map[] && DraftAt(w, es, q, i)
    ensures Began(w, es, es[i].pid, q, r, i)
  {
    hide At, Unfold, Next;
    r := SomewhereBegun(w, es, es[i].pid, i);
  }

  /** One conversion does not draft twice. */
  lemma {:induction false} NotTheSame(w: World, es: seq<Event>, q: Id, i: int, j: int, r: int)
    requires i < j && DraftAt(w, es, q, i) && DraftAt(w, es, q, j) && Began(w, es, es[i].pid, q, r, i)
    ensures !Began(w, es, es[j].pid, q, r, j)
  {
    hide At, Unfold, Next;
    if Began(w, es, es[j].pid, q, r, j) {
      InFlightJoined(w, es, es[i].pid, r, i, j);
      hide InFlight;
      StillDrafted(w, es, q, i, j);
      assert false;
    }
  }

  lemma {:induction false} StillDrafted(w: World, es: seq<Event>, q: Id, i: int, k: int)
    requires DraftAt(w, es, q, i) && i < k <= |es| && InFlight(w, es, es[i].pid, i, k)
    ensures DraftsOf(At(w, es, k), es[i].pid, q)
    decreases k
  {
    hide At, Unfold, InFlight, Next;
    UnfoldPrefix(w, es, k - 1);
    if k > i + 1 {
      InFlightJoined(w, es, es[i].pid, i, k - 1, k);
      StillDrafted(w, es, q, i, k - 1);
      ThereAt(w, es, es[i].pid, i, k);
      hide CommitsDraft;
      FlightsAfter(At(w, es, k - 1), es[k - 1], es[i].pid);
    }
  }

  lemma {:induction false} ThereAt(w: World, es: seq<Event>, pid: nat, a: int, b: int)
    requires 0 <= a < b <= |es| && InFlight(w, es, pid, a, b)
    ensures pid in At(w, es, b).running
  {
  }

  lemma {:induction false} NoFlightYet(w: World)
    requires WorldOk(w) && w.running == map[]
    ensures FlightsOk(w)
  {
    hide WorldOk;
  }

  /** Over every interleaving from a sound ledger: the conversions of a quote commit more than one draft
      if and only if one that drafts has read the quote too early: while another one that drafts was in
      flight, or after such a one had crashed between its draft and its mark. */
  lemma {:induction false} TwoDraftsIff(w: World, es: seq<Event>, q: Id)
    requires WorldOk(w) && w.running == map[]
    ensures Drafts(w, es, q) >= 2 <==>
      exists i, j :: i != j && DraftAt(w, es, q, i) && DraftAt(w, es, q, j) && ReadTooEarly(w, es, q, i, j)
  {
    hide *;
    NoFlightYet(w);
    TwoDraftsAt(w, es, q);
    if Drafts(w, es, q) >= 2 {
      var i, j :| i < j && DraftAt(w, es, q, i) && DraftAt(w, es, q, j);
      LaterReadIsTooEarly(w, es, q, i, j);
    }
    forall i, j | i != j && DraftAt(w, es, q, i) && DraftAt(w, es, q, j) ensures Drafts(w, es, q) >= 2 {
      if i < j {
        assert i < j && DraftAt(w, es, q, i) && DraftAt(w, es, q, j);
      } else {
        assert j < i && DraftAt(w, es, q, j) && DraftAt(w, es, q, i);
      }
    }
  }

  // ------------------------------------------------------------------ whether another draft can follow

  /** Somebody can still draft: the quote can be read, or has been. */
  ghost predicate Armed(w: World, q: Id) {
    IsAccepted(w.store, q) || exists pid :: ReadsOf(w, pid, q)
  }

  lemma {:induction false} DisarmedStays(w: World, e: Event, q: Id)
    requires FlightsOk(w) && Offered(w.store, q) && !Armed(w, q)
    ensures !Armed(Next(w, e), q) && Offered(Next(w, e).store, q) && !CommitsDraft(w, e, q)
  {
    FlightsInv(w);
    hide FlightsOk, Inv;
    EventKeepsSettled(w, e, q);
    hide Settled;
    SettledIsOffered(Next(w, e).store, q);
    hide Offered, CreateDraft, Step;
    forall pid ensures !ReadsOf(Next(w, e), pid, q) {
      if pid in Next(w, e).running {
        FlightsAfter(w, e, pid);
      }
      assert !ReadsOf(w, pid, q);
    }
  }

  lemma {:induction false} DisarmedRun(w: World, es: seq<Event>, q: Id)
    requires FlightsOk(w) && Offered(w.store, q) && !Armed(w, q)
    ensures Drafts(w, es, q) == 0 && !Armed(Unfold(w, es), q) && Offered(Unfold(w, es).store, q)
  {
    hide FlightsOk, Offered, Armed, Next, CommitsDraft;
    if es != [] {
      DisarmedRun(w, es[..|es| - 1], q);
      UnfoldKeepsFlights(w, es[..|es| - 1]);
      DisarmedStays(Unfold(w, es[..|es| - 1]), es[|es| - 1], q);
    }
  }

  lemma {:induction false} LongerThanAll(ids: set<Id>) returns (id: Id)
    ensures forall x :: x in ids ==> |x| < |id|
  {
    if ids == {} {
      id := "";
    } else {
      var x :| x in ids;
      var rest := LongerThanAll(ids - {x});
      id := x + rest + "-";
      assert forall y :: y in ids ==> y == x || y in ids - {x};
    }
  }

  lemma {:induction false} NewProcess(running: set<nat>) returns (pid: nat)
    ensures forall p :: p in running ==> p < pid
  {
    if running == {} {
      pid := 0;
    } else {
      var p :| p in running;
      var rest := NewProcess(running - {p});
      pid := p + rest + 1;
      assert forall x :: x in running ==> x == p || x in running - {p};
    }
  }

  const SOME_DAY: Date := YMD(2024, 1, 1)

  lemma {:induction false} AskedDrafts(w: World, pid: nat, q: Id, id: Id, day: Date)
    requires ReadsOf(w, pid, q)
    requires CreateDraft(w.store, id, ConversionRequest(w.running[pid].quote, None, None, day), day).Ok?
    ensures CommitsDraft(w, ConvertDraft(pid, id, None, None, day), q)
  {
    hide CreateDraft, ConversionRequest, Step;
  }

  /** A conversion that has read commits its draft as soon as it asks for it. */
  lemma {:induction false} ReaderDrafts(w: World, pid: nat, q: Id) returns (e: Event)
    requires FlightsOk(w) && ReadsOf(w, pid, q)
    ensures CommitsDraft(w, e, q)
  {
    hide WorldOk, FlightsOk, QuoteOk, PricedOffer, CreateDraft, ConversionRequest, CommitsDraft, Inv, Offered;
    var id := LongerThanAll(w.store.usedIds);
    assert id !in w.store.usedIds;
    OneFlight(w, pid);
    DraftRefusedIff(w.store, w.running[pid].quote, id, None, None, SOME_DAY);
    e := ConvertDraft(pid, id, None, None, SOME_DAY);
    AskedDrafts(w, pid, q, id, SOME_DAY);
  }

  lemma {:induction false} ArmedDrafts(w: World, q: Id) returns (es: seq<Event>)
    requires FlightsOk(w) && Armed(w, q)
    ensures Drafts(w, es, q) >= 1
  {
    hide FlightsOk, Next, CommitsDraft;
    if pid :| ReadsOf(w, pid, q) {
      var e := ReaderDrafts(w, pid, q);
      es := [e];
      assert [e][..0] == [];
      assert Unfold(w, []) == w;
    } else {
      var pid := NewProcess(w.running.Keys);
      var read := ConvertRead(pid, q);
      ReadIsTaken(w, pid, q);
      NextKeepsFlights(w, read);
      var e := ReaderDrafts(Next(w, read), pid, q);
      es := [read, e];
      assert [read, e][..1] == [read] && [read][..0] == [];
      assert Unfold(w, []) == w;
      assert Unfold(w, [read]) == Next(w, read);
    }
  }

  lemma {:induction false} ReadIsTaken(w: World, pid: nat, q: Id)
    requires pid !in w.running && IsAccepted(w.store, q)
    ensures ReadsOf(Next(w, ConvertRead(pid, q)), pid, q)
  {
  }

  /** Once a quote has been offered, which it has when a conversion drafts, another draft of it can follow
      if and only if the quote is still accepted or another conversion has read it and not drafted yet.
      After a mark, so, exactly the conversions that read before it can add a draft; after a crash between
      draft and mark, everybody can. */
  lemma {:induction false} AnotherDraftIff(w: World, q: Id)
    requires FlightsOk(w) && Offered(w.store, q)
    ensures (exists es :: Drafts(w, es, q) >= 1) <==> Armed(w, q)
  {
    hide FlightsOk, Offered, Armed, Drafts;
    if Armed(w, q) {
      var es := ArmedDrafts(w, q);
    } else {
      forall es ensures Drafts(w, es, q) < 1 {
        DisarmedRun(w, es, q);
      }
    }
  }
}
