// api/middleware/ratelimit.py: the sliding-window limiter. Requests are served concurrently, but
// each half of `dispatch` runs without yielding: the checks on arrival, and the charge once the
// response is known. Times are what time.monotonic() returned.
module RateLimit {

  const WINDOW := 60.0

  datatype Config = Config(limit: int, authLimit: int)

  datatype State = State(hits: map<string, seq<real>>, authHits: map<string, seq<real>>)

  datatype Outcome = Bypassed | Admitted | TooMany

  predicate IsExempt(path: string) {
    path == "/healthz" || path == "/readyz"
  }

  predicate IsAuthPath(path: string) {
    "/auth/login" <= path || "/auth/signup" <= path || "/auth/password" <= path
  }

  predicate IsFailure(status: int) {
    status == 400 || status == 401 || status == 403 || status == 409 || status == 422
  }

  /** `defaultdict(deque)`. */
  function HitsOf(hits: map<string, seq<real>>, key: string): seq<real> {
    if key in hits then hits[key] else []
  }

  function Trimmed(hits: seq<real>, now: real): seq<real> {
    if hits != [] && now - hits[0] > WINDOW then Trimmed(hits[1..], now) else hits
  }

  predicate Metered(cfg: Config, path: string) {
    cfg.limit > 0 && !IsExempt(path)
  }

  predicate ChargesFailures(cfg: Config, path: string) {
    IsAuthPath(path) && cfg.authLimit > 0
  }

  /** `dispatch` up to the call of the endpoint. */
  function Decide(cfg: Config, s: State, key: string, path: string, now: real): (State, Outcome) {
    if !Metered(cfg, path) then (s, Bypassed)
    else
      var failures := Trimmed(HitsOf(s.authHits, key), now);
      var checked := if ChargesFailures(cfg, path) then s.(authHits := s.authHits[key := failures]) else s;
      if ChargesFailures(cfg, path) && |failures| >= cfg.authLimit then (checked, TooMany)
      else
        var recent := Trimmed(HitsOf(s.hits, key), now);
        if |recent| >= cfg.limit then (checked.(hits := s.hits[key := recent]), TooMany)
        else (checked.(hits := s.hits[key := recent + [now]]), Admitted)
  }

  /** `dispatch` after the response. */
  function Charge(s: State, key: string, charged: bool, status: int, now: real): State {
    if charged && IsFailure(status) then s.(authHits := s.authHits[key := HitsOf(s.authHits, key) + [now]]) else s
  }

  // ------------------------------------------------------------------ the middleware object

  class RateLimitMiddleware {
    const cfg: Config
    var hits: map<string, seq<real>>
    var authHits: map<string, seq<real>>

    constructor (limit: int, authLimit: int)
      ensures cfg == Config(limit, authLimit) && Now() == State(map[], map[])
    {
      cfg := Config(limit, authLimit);
      hits, authHits := map[], map[];
    }

    function Now(): State
      reads this
    {
      State(hits, authHits)
    }

    /** `_trim`. */
    static method Trim(deque: seq<real>, now: real) returns (rest: seq<real>)
      ensures rest == Trimmed(deque, now)
    {
      rest := deque;
      while rest != [] && now - rest[0] > WINDOW
        invariant Trimmed(rest, now) == Trimmed(deque, now)
        decreases |rest|
      {
        rest := rest[1..];
      }
    }

    method Arrive(key: string, path: string, now: real) returns (r: Outcome)
      modifies this
      ensures (Now(), r) == Decide(cfg, old(Now()), key, path, now)
    {
      if cfg.limit <= 0 || IsExempt(path) {
        return Bypassed;
      }
      if IsAuthPath(path) && cfg.authLimit > 0 {
        var failures := Trim(HitsOf(authHits, key), now);
        authHits := authHits[key := failures];
        if |failures| >= cfg.authLimit {
          return TooMany;
        }
      }
      var recent := Trim(HitsOf(hits, key), now);
      hits := hits[key := recent];
      if |recent| >= cfg.limit {
        return TooMany;
      }
      assert hits[key := recent + [now]] == old(hits)[key := recent + [now]];
      hits := hits[key := recent + [now]];
      r := Admitted;
    }

    method Respond(key: string, path: string, status: int, now: real)
      modifies this
      ensures Now() == Charge(old(Now()), key, ChargesFailures(cfg, path), status, now)
    {
      if IsAuthPath(path) && cfg.authLimit > 0 && IsFailure(status) {
        authHits := authHits[key := HitsOf(authHits, key) + [now]];
      }
    }
  }

  // ------------------------------------------------------------------ runs

  /** A request between its admission and its response. */
  datatype Flight = Flight(key: string, charged: bool)

  /** The limiter, the requests in flight, and everything that ever happened: the times of all
      admissions and of all recorded failures, which the limiter itself forgets. */
  datatype World = World(
    state: State, running: map<nat, Flight>, clock: real,
    admitted: map<string, seq<real>>, failed: map<string, seq<real>>)

  const START := World(State(map[], map[]), map[], 0.0, map[], map[])

  datatype Event =
    | Arrive(request: nat, key: string, path: string, now: real)
    | Respond(request: nat, status: int, now: real)
    | Abort(request: nat)

  /** An event that cannot happen (an earlier time, an unknown request) changes nothing. */
  function Next(cfg: Config, w: World, e: Event): World {
    match e
    case Arrive(request, key, path, now) =>
      if now < w.clock || request in w.running then w
      else
        var (s, outcome) := Decide(cfg, w.state, key, path, now);
        var seen := w.(state := s, clock := now);
        if !outcome.Admitted? then seen
        else seen.(running := w.running[request := Flight(key, ChargesFailures(cfg, path))],
                   admitted := w.admitted[key := HitsOf(w.admitted, key) + [now]])
    case Respond(request, status, now) =>
      if now < w.clock || request !in w.running then w
      else
        var flight := w.running[request];
        World(Charge(w.state, flight.key, flight.charged, status, now), w.running - {request}, now, w.admitted,
              if flight.charged && IsFailure(status) then w.failed[flight.key := HitsOf(w.failed, flight.key) + [now]]
              else w.failed)
    case Abort(request) => w.(running := w.running - {request})
  }

  function Unfold(cfg: Config, es: seq<Event>): World {
    if es == [] then START else Next(cfg, Unfold(cfg, es[..|es| - 1]), es[|es| - 1])
  }

  // ------------------------------------------------------------------ windows over a log of times

  predicate Sorted(log: seq<real>) {
    forall i, j :: 0 <= i <= j < |log| ==> log[i] <= log[j]
  }

  /** How many of the logged times lie in the closed interval. */
  function CountIn(log: seq<real>, from: real, to: real): nat {
    if log == [] then 0
    else CountIn(log[..|log| - 1], from, to) + if from <= log[|log| - 1] <= to then 1 else 0
  }

  /** Any entry and the n-th after it are more than a window apart. */
  predicate Spaced(log: seq<real>, n: nat) {
    forall i, j :: 0 <= i && i + n <= j < |log| ==> log[j] - log[i] > WINDOW
  }

  lemma {:induction false} CountSpan(log: seq<real>, from: real, to: real, i: nat, j: nat)
    requires i <= j <= |log|
    requires forall k :: 0 <= k < |log| && from <= log[k] <= to ==> i <= k < j
    ensures CountIn(log, from, to) <= j - i
  {
    if log != [] {
      var n := |log| - 1;
      if j <= n {
        CountSpan(log[..n], from, to, i, j);
      } else if i <= n {
        CountSpan(log[..n], from, to, i, n);
      } else {
        CountSpan(log[..n], from, to, n, n);
      }
    }
  }

  lemma {:induction false} CountExactly(log: seq<real>, from: real, to: real, i: nat)
    requires i <= |log|
    requires forall k :: 0 <= k < |log| ==> (from <= log[k] <= to <==> i <= k)
    ensures CountIn(log, from, to) == |log| - i
  {
    if log != [] {
      var n := |log| - 1;
      CountExactly(log[..n], from, to, if i <= n then i else n);
    }
  }

  /** Spacing is what a window bound means: no closed window holds more than n entries. */
  lemma {:induction false} SpacedWindow(log: seq<real>, n: nat, from: real)
    requires Sorted(log) && Spaced(log, n)
    ensures CountIn(log, from, from + WINDOW) <= n
  {
    if log != [] {
      var m := |log| - 1;
      if from <= log[m] <= from + WINDOW {
        CountSpan(log, from, from + WINDOW, if m + 1 < n then 0 else m + 1 - n, m + 1);
      } else {
        SpacedWindow(log[..m], n, from);
      }
    }
  }

  // ------------------------------------------------------------------ what the deques remember

  /** A deque is the end of its log, and what it has dropped is out of the window for good. */
  predicate Remembers(log: seq<real>, deque: seq<real>, clock: real) {
    && Sorted(log)
    && (forall i :: 0 <= i < |log| ==> log[i] <= clock)
    && |deque| <= |log| && deque == log[|log| - |deque|..]
    && (forall i :: 0 <= i < |log| - |deque| ==> clock - log[i] > WINDOW)
  }

  lemma {:induction false} TrimRemembers(log: seq<real>, deque: seq<real>, clock: real, now: real)
    requires Remembers(log, deque, clock) && clock <= now
    ensures Remembers(log, Trimmed(deque, now), now)
    ensures forall i :: 0 <= i < |Trimmed(deque, now)| ==> now - Trimmed(deque, now)[i] <= WINDOW
    decreases |deque|
  {
    if deque != [] {
      var k := |log| - |deque|;
      assert deque[0] == log[k];
      if now - deque[0] > WINDOW {
        assert deque[1..] == log[k + 1..];
        assert forall i :: 0 <= i < k + 1 ==> now - log[i] > WINDOW;
        assert Remembers(log, deque[1..], now);
        TrimRemembers(log, deque[1..], now, now);
      } else {
        assert forall i :: 0 <= i < |deque| ==> deque[i] == log[k + i];
      }
    }
  }

  /** So the deque's length after trimming is the number of entries of the last sixty seconds. */
  lemma {:induction false} TrimCounts(log: seq<real>, deque: seq<real>, clock: real, now: real)
    requires Remembers(log, deque, clock) && clock <= now
    ensures |Trimmed(deque, now)| == CountIn(log, now - WINDOW, now)
  {
    TrimRemembers(log, deque, clock, now);
    var rest := Trimmed(deque, now);
    var k := |log| - |rest|;
    assert forall i :: k <= i < |log| ==> log[i] == rest[i - k];
    CountExactly(log, now - WINDOW, now, k);
  }

  lemma {:induction false} AppendRemembers(log: seq<real>, deque: seq<real>, clock: real, now: real)
    requires Remembers(log, deque, clock) && clock <= now
    ensures Remembers(log + [now], deque + [now], now)
  {
  }

  lemma {:induction false} LaterRemembers(log: seq<real>, deque: seq<real>, clock: real, now: real)
    requires Remembers(log, deque, clock) && clock <= now
    ensures Remembers(log, deque, now)
  {
  }

  // ------------------------------------------------------------------ the request budget

  ghost predicate DequesOk(w: World) {
    && (forall key: string :: Remembers(HitsOf(w.admitted, key), HitsOf(w.state.hits, key), w.clock))
    && (forall key: string :: Remembers(HitsOf(w.failed, key), HitsOf(w.state.authHits, key), w.clock))
  }

  ghost predicate BudgetOk(cfg: Config, w: World) {
    cfg.limit > 0 ==> forall key: string :: Spaced(HitsOf(w.admitted, key), cfg.limit)
  }

  /** What an arrival does to the deques and the logs of any one client. */
  lemma {:induction false} ArriveEffect(cfg: Config, w: World, e: Event, key: string)
    requires e.Arrive? && w.clock <= e.now && e.request !in w.running
    ensures var w' := Next(cfg, w, e);
            var deque, rest := HitsOf(w.state.hits, key), Trimmed(HitsOf(w.state.hits, key), e.now);
            && w'.clock == e.now && w'.failed == w.failed
            && (HitsOf(w'.state.authHits, key) == HitsOf(w.state.authHits, key)
                || HitsOf(w'.state.authHits, key) == Trimmed(HitsOf(w.state.authHits, key), e.now))
            && (((HitsOf(w'.state.hits, key) == deque || HitsOf(w'.state.hits, key) == rest)
                 && HitsOf(w'.admitted, key) == HitsOf(w.admitted, key))
                || (HitsOf(w'.state.hits, key) == rest + [e.now] && HitsOf(w'.admitted, key) == HitsOf(w.admitted, key) + [e.now]))
  {
    hide Trimmed, IsAuthPath, IsExempt;
  }

  lemma {:induction false} ArriveKeepsDeques(cfg: Config, w: World, e: Event)
    requires DequesOk(w) && e.Arrive?
    ensures DequesOk(Next(cfg, w, e))
  {
    var w' := Next(cfg, w, e);
    hide Remembers, Trimmed, Decide;
    if w.clock <= e.now && e.request !in w.running {
      hide Next, HitsOf;
      forall key: string
        ensures Remembers(HitsOf(w'.admitted, key), HitsOf(w'.state.hits, key), w'.clock)
        ensures Remembers(HitsOf(w'.failed, key), HitsOf(w'.state.authHits, key), w'.clock)
      {
        var log, deque := HitsOf(w.admitted, key), HitsOf(w.state.hits, key);
        ArriveEffect(cfg, w, e, key);
        LaterRemembers(log, deque, w.clock, e.now);
        TrimRemembers(log, deque, w.clock, e.now);
        AppendRemembers(log, Trimmed(deque, e.now), e.now, e.now);
        LaterRemembers(HitsOf(w.failed, key), HitsOf(w.state.authHits, key), w.clock, e.now);
        TrimRemembers(HitsOf(w.failed, key), HitsOf(w.state.authHits, key), w.clock, e.now);
      }
    }
  }

  /** What a response does to the deques and the logs of any one client. */
  lemma {:induction false} RespondEffect(cfg: Config, w: World, e: Event, key: string)
    requires e.Respond? && w.clock <= e.now && e.request in w.running
    ensures var w' := Next(cfg, w, e);
            && w'.clock == e.now && w'.admitted == w.admitted && w'.state.hits == w.state.hits
            && ((HitsOf(w'.state.authHits, key) == HitsOf(w.state.authHits, key) && HitsOf(w'.failed, key) == HitsOf(w.failed, key))
                || (HitsOf(w'.state.authHits, key) == HitsOf(w.state.authHits, key) + [e.now]
                    && HitsOf(w'.failed, key) == HitsOf(w.failed, key) + [e.now]))
  {
    hide IsFailure;
  }

  lemma {:induction false} RespondKeepsDeques(cfg: Config, w: World, e: Event)
    requires DequesOk(w) && e.Respond?
    ensures DequesOk(Next(cfg, w, e))
  {
    var w' := Next(cfg, w, e);
    hide Remembers, Charge;
    if w.clock <= e.now && e.request in w.running {
      hide Next, HitsOf;
      forall key: string
        ensures Remembers(HitsOf(w'.admitted, key), HitsOf(w'.state.hits, key), w'.clock)
        ensures Remembers(HitsOf(w'.failed, key), HitsOf(w'.state.authHits, key), w'.clock)
      {
        RespondEffect(cfg, w, e, key);
        LaterRemembers(HitsOf(w.admitted, key), HitsOf(w.state.hits, key), w.clock, e.now);
        LaterRemembers(HitsOf(w.failed, key), HitsOf(w.state.authHits, key), w.clock, e.now);
        AppendRemembers(HitsOf(w.failed, key), HitsOf(w.state.authHits, key), w.clock, e.now);
      }
    }
  }

  /** Room in the deque means the n-th last admission is out of the window. */
  lemma {:induction false} RoomKeepsSpacing(log: seq<real>, deque: seq<real>, clock: real, now: real, n: nat)
    requires Remembers(log, deque, clock) && clock <= now && Spaced(log, n)
    requires |Trimmed(deque, now)| < n
    ensures Spaced(log + [now], n)
  {
    TrimRemembers(log, deque, clock, now);
  }

  lemma {:induction false} NextKeepsBudget(cfg: Config, w: World, e: Event)
    requires DequesOk(w) && BudgetOk(cfg, w)
    ensures DequesOk(Next(cfg, w, e)) && BudgetOk(cfg, Next(cfg, w, e))
  {
    hide Remembers, Trimmed, Spaced;
    match e
    case Arrive(_, key, _, now) =>
      ArriveKeepsDeques(cfg, w, e);
      if w.clock <= now {
        if |Trimmed(HitsOf(w.state.hits, key), now)| < cfg.limit {
          RoomKeepsSpacing(HitsOf(w.admitted, key), HitsOf(w.state.hits, key), w.clock, now, cfg.limit);
        }
      }
    case Respond(_, _, _) => RespondKeepsDeques(cfg, w, e);
    case Abort(_) =>
  }

  lemma {:induction false} UnfoldKeepsBudget(cfg: Config, es: seq<Event>)
    ensures DequesOk(Unfold(cfg, es)) && BudgetOk(cfg, Unfold(cfg, es))
  {
    if es != [] {
      hide Next, DequesOk, BudgetOk;
      UnfoldKeepsBudget(cfg, es[..|es| - 1]);
      NextKeepsBudget(cfg, Unfold(cfg, es[..|es| - 1]), es[|es| - 1]);
    }
  }

  /** For every schedule, no closed sixty-second window holds more than `limit` admitted requests
      of one client. */
  lemma {:induction false} WindowHoldsAtMostLimit(cfg: Config, es: seq<Event>, key: string, from: real)
    requires cfg.limit > 0
    ensures CountIn(HitsOf(Unfold(cfg, es).admitted, key), from, from + WINDOW) <= cfg.limit
  {
    UnfoldKeepsBudget(cfg, es);
    hide Unfold;
    SpacedWindow(HitsOf(Unfold(cfg, es).admitted, key), cfg.limit, from);
  }

  /** And a metered request is turned away exactly when `limit` were admitted in the last sixty
      seconds, or, on an authentication path, when `authLimit` failures were recorded in them. */
  lemma {:induction false} RefusedIff(cfg: Config, es: seq<Event>, key: string, path: string, now: real)
    requires Unfold(cfg, es).clock <= now
    ensures var w := Unfold(cfg, es);
            Decide(cfg, w.state, key, path, now).1.TooMany? <==>
              Metered(cfg, path)
              && (CountIn(HitsOf(w.admitted, key), now - WINDOW, now) >= cfg.limit
                  || (ChargesFailures(cfg, path) && CountIn(HitsOf(w.failed, key), now - WINDOW, now) >= cfg.authLimit))
  {
    var w := Unfold(cfg, es);
    UnfoldKeepsBudget(cfg, es);
    hide Unfold, Remembers, Trimmed;
    TrimCounts(HitsOf(w.admitted, key), HitsOf(w.state.hits, key), w.clock, now);
    TrimCounts(HitsOf(w.failed, key), HitsOf(w.state.authHits, key), w.clock, now);
  }

  // ------------------------------------------------------------------ what counts

  /** The paths whose failures are attempts at somebody's account. */
  predicate SignsIn(path: string) {
    "/auth/login" <= path || "/auth/signup" <= path || "/auth/password" <= path
  }

  const FAILURES: set<int> := {400, 401, 403, 409, 422}

  /** For every schedule: what a request meets on arrival, from what was admitted and what failed in the last sixty
      seconds. */
  lemma {:induction false} MetOnArrival(cfg: Config, es: seq<Event>, key: string, path: string, now: real)
    requires Unfold(cfg, es).clock <= now
    ensures var w := Unfold(cfg, es);
            var admitted := CountIn(HitsOf(w.admitted, key), now - 60.0, now);
            var failed := CountIn(HitsOf(w.failed, key), now - 60.0, now);
            Decide(cfg, w.state, key, path, now).1 ==
              if cfg.limit <= 0 || path == "/healthz" || path == "/readyz" then Bypassed
              else if SignsIn(path) && 0 < cfg.authLimit <= failed then TooMany
              else if admitted >= cfg.limit then TooMany
              else Admitted
  {
    RefusedIff(cfg, es, key, path, now);
    hide Unfold, CountIn, Trimmed;
  }

  /** What a response adds to a client's failures: its time, exactly when it is one of the failing statuses on a
      request that signs in. */
  lemma {:induction false} FailureCountedIff(cfg: Config, w: World, e: Event, key: string)
    ensures HitsOf(Next(cfg, w, e).failed, key) == HitsOf(w.failed, key) +
      if e.Respond? && w.clock <= e.now && e.request in w.running && w.running[e.request] == Flight(key, true) && e.status in FAILURES
      then [e.now] else []
  {
    hide Decide, Charge;
  }

  /** What an arrival adds to a client's admissions: its time, exactly when it is let through; and it is remembered
      whether its failure will count. */
  lemma {:induction false} AdmissionCountedIff(cfg: Config, w: World, e: Event, key: string)
    ensures HitsOf(Next(cfg, w, e).admitted, key) == HitsOf(w.admitted, key) +
      if e.Arrive? && w.clock <= e.now && e.request !in w.running && e.key == key && Decide(cfg, w.state, key, e.path, e.now).1 == Admitted
      then [e.now] else []
    ensures e.Arrive? && w.clock <= e.now && e.request !in w.running && Decide(cfg, w.state, e.key, e.path, e.now).1 == Admitted ==>
      Next(cfg, w, e).running == w.running[e.request := Flight(e.key, SignsIn(e.path) && cfg.authLimit > 0)]
  {
    hide Decide, Charge, IsFailure;
  }

  /** A correct sign-in costs nothing: a client none of whose requests failed has no failures against it. */
  lemma {:induction false} SuccessCostsNothing(cfg: Config, es: seq<Event>, key: string)
    requires forall i :: 0 <= i < |es| && es[i].Respond? ==> es[i].status !in FAILURES
    ensures HitsOf(Unfold(cfg, es).failed, key) == []
  {
    if es != [] {
      SuccessCostsNothing(cfg, es[..|es| - 1], key);
      FailureCountedIff(cfg, Unfold(cfg, es[..|es| - 1]), es[|es| - 1], key);
      hide Next, HitsOf;
    }
  }

  // ------------------------------------------------------------------ the failure budget

  /** Authentication requests of one client that are being served. */
  function InFlight(running: map<nat, Flight>, key: string): set<nat> {
    set r | r in running && running[r] == Flight(key, true)
  }

  /** At no moment of the run are more than `most` of them served at once. */
  ghost predicate NeverMore(cfg: Config, es: seq<Event>, key: string, most: nat) {
    (es == [] || NeverMore(cfg, es[..|es| - 1], key, most)) && |InFlight(Unfold(cfg, es).running, key)| <= most
  }

  /** Once `authLimit` failures lie in one window, what is still in flight is all that can join them. */
  ghost predicate Closing(log: seq<real>, clock: real, authLimit: int, flying: nat, most: nat) {
    forall p :: 0 <= p < |log| && clock - log[p] <= WINDOW && |log| - p >= authLimit ==>
      |log| - p + flying <= authLimit + most - 1
  }

  ghost predicate FailuresOk(cfg: Config, w: World, key: string, most: nat)
    requires cfg.authLimit > 0
  {
    && Closing(HitsOf(w.failed, key), w.clock, cfg.authLimit, |InFlight(w.running, key)|, most)
    && Spaced(HitsOf(w.failed, key), cfg.authLimit + most - 1)
  }

  lemma {:induction false} FewerInFlight(running: map<nat, Flight>, r: nat, key: string)
    ensures |InFlight(running - {r}, key)|
         == |InFlight(running, key)| - if r in running && running[r] == Flight(key, true) then 1 else 0
  {
    var before, after := InFlight(running, key), InFlight(running - {r}, key);
    if r in running && running[r] == Flight(key, true) {
      assert before == after + {r} && r !in after;
    } else {
      assert before == after;
    }
  }

  /** One more recorded failure, one request less in flight. */
  lemma {:induction false} FailureKeepsClosing(log: seq<real>, clock: real, now: real, authLimit: int, flying: nat, most: nat)
    requires authLimit > 0 && 1 <= flying <= most && clock <= now
    requires Closing(log, clock, authLimit, flying, most) && Spaced(log, authLimit + most - 1)
    requires forall i :: 0 <= i < |log| ==> log[i] <= clock
    ensures Closing(log + [now], now, authLimit, flying - 1, most)
    ensures Spaced(log + [now], authLimit + most - 1)
  {
    var longer := log + [now];
    forall p | 0 <= p < |longer| && now - longer[p] <= WINDOW && |longer| - p >= authLimit
      ensures |longer| - p + (flying - 1) <= authLimit + most - 1
    {
      if p < |log| && |log| - p >= authLimit {
        assert clock - log[p] <= WINDOW;
      }
    }
  }

  /** A new authentication request is admitted only while no window is full. */
  lemma {:induction false} AdmissionKeepsClosing(log: seq<real>, deque: seq<real>, clock: real, now: real, authLimit: int, flying: nat, most: nat)
    requires authLimit > 0 && clock <= now && Remembers(log, deque, clock)
    requires |Trimmed(deque, now)| < authLimit
    ensures Closing(log, now, authLimit, flying, most)
  {
    TrimRemembers(log, deque, clock, now);
  }

  lemma {:induction false} LaterClosing(log: seq<real>, clock: real, now: real, authLimit: int, flying: nat, fewer: nat, most: nat)
    requires Closing(log, clock, authLimit, flying, most) && clock <= now && fewer <= flying
    ensures Closing(log, now, authLimit, fewer, most)
  {
  }

  lemma {:induction false} ArriveKeepsFailures(cfg: Config, w: World, e: Event, key: string, most: nat)
    requires cfg.authLimit > 0 && most >= 1 && e.Arrive?
    requires DequesOk(w) && FailuresOk(cfg, w, key, most)
    ensures FailuresOk(cfg, Next(cfg, w, e), key, most)
  {
    hide Remembers, Spaced, Trimmed, IsAuthPath, IsExempt;
    var w' := Next(cfg, w, e);
    if w.clock <= e.now && e.request !in w.running {
      var log := HitsOf(w.failed, key);
      if Decide(cfg, w.state, e.key, e.path, e.now).1.Admitted? && e.key == key && ChargesFailures(cfg, e.path) {
        AdmissionKeepsClosing(log, HitsOf(w.state.authHits, key), w.clock, e.now, cfg.authLimit, |InFlight(w'.running, key)|, most);
      } else {
        hide Decide;
        assert InFlight(w'.running, key) == InFlight(w.running, key);
      }
    }
  }

  lemma {:induction false} Responded(cfg: Config, w: World, e: Event)
    requires e.Respond?
    ensures if e.now < w.clock || e.request !in w.running then Next(cfg, w, e) == w
            else Next(cfg, w, e).clock == e.now && Next(cfg, w, e).running == w.running - {e.request}
  {
    hide Charge, IsFailure;
  }

  lemma {:induction false} FailuresMean(cfg: Config, w: World, key: string, most: nat)
    requires cfg.authLimit > 0
    ensures FailuresOk(cfg, w, key, most)
        <==> && Closing(HitsOf(w.failed, key), w.clock, cfg.authLimit, |InFlight(w.running, key)|, most)
             && Spaced(HitsOf(w.failed, key), cfg.authLimit + most - 1)
  {
    hide Closing, Spaced, InFlight, HitsOf;
  }

  lemma {:induction false} NoneLater(w: World, key: string)
    requires DequesOk(w)
    ensures forall i :: 0 <= i < |HitsOf(w.failed, key)| ==> HitsOf(w.failed, key)[i] <= w.clock
  {
    assert Remembers(HitsOf(w.failed, key), HitsOf(w.state.authHits, key), w.clock);
  }

  lemma {:induction false} RespondKeepsFailures(cfg: Config, w: World, e: Event, key: string, most: nat)
    requires cfg.authLimit > 0 && most >= 1 && e.Respond?
    requires DequesOk(w) && FailuresOk(cfg, w, key, most) && |InFlight(w.running, key)| <= most
    ensures FailuresOk(cfg, Next(cfg, w, e), key, most)
  {
    hide *;
    FewerInFlight(w.running, e.request, key);
    NoneLater(w, key);
    FailureCountedIff(cfg, w, e, key);
    Responded(cfg, w, e);
    FailuresMean(cfg, w, key, most);
    FailuresMean(cfg, Next(cfg, w, e), key, most);
    var log := HitsOf(w.failed, key);
    if w.clock <= e.now && e.request in w.running {
      LaterClosing(log, w.clock, e.now, cfg.authLimit, |InFlight(w.running, key)|, |InFlight(w.running - {e.request}, key)|, most);
      if w.running[e.request] == Flight(key, true) && e.status in FAILURES {
        FailureKeepsClosing(log, w.clock, e.now, cfg.authLimit, |InFlight(w.running, key)|, most);
      } else {
        assert log + [] == log;
      }
    }
  }

  lemma {:induction false} NextKeepsFailures(cfg: Config, w: World, e: Event, key: string, most: nat)
    requires cfg.authLimit > 0 && most >= 1
    requires DequesOk(w) && FailuresOk(cfg, w, key, most) && |InFlight(w.running, key)| <= most
    ensures FailuresOk(cfg, Next(cfg, w, e), key, most)
  {
    match e
    case Arrive(_, _, _, _) => ArriveKeepsFailures(cfg, w, e, key, most);
    case Respond(_, _, _) => RespondKeepsFailures(cfg, w, e, key, most);
    case Abort(request) =>
      FewerInFlight(w.running, request, key);
      hide Spaced, InFlight;
  }

  lemma {:induction false} UnfoldKeepsFailures(cfg: Config, es: seq<Event>, key: string, most: nat)
    requires cfg.authLimit > 0 && most >= 1 && NeverMore(cfg, es, key, most)
    ensures FailuresOk(cfg, Unfold(cfg, es), key, most)
  {
    if es != [] {
      hide Next, FailuresOk, DequesOk;
      UnfoldKeepsFailures(cfg, es[..|es| - 1], key, most);
      UnfoldKeepsBudget(cfg, es[..|es| - 1]);
      NextKeepsFailures(cfg, Unfold(cfg, es[..|es| - 1]), es[|es| - 1], key, most);
    }
  }

  /** For every schedule with at most `most` authentication requests of a client served at once,
      no closed sixty-second window records more than authLimit + most - 1 of its failures: the
      charge comes after the response, so those already past the check still count. */
  lemma {:induction false} FailuresBounded(cfg: Config, es: seq<Event>, key: string, most: nat, from: real)
    requires cfg.authLimit > 0 && most >= 1 && NeverMore(cfg, es, key, most)
    ensures CountIn(HitsOf(Unfold(cfg, es).failed, key), from, from + WINDOW) <= cfg.authLimit + most - 1
  {
    UnfoldKeepsFailures(cfg, es, key, most);
    UnfoldKeepsBudget(cfg, es);
    hide Unfold;
    assert Remembers(HitsOf(Unfold(cfg, es).failed, key), HitsOf(Unfold(cfg, es).state.authHits, key), Unfold(cfg, es).clock);
    SpacedWindow(HitsOf(Unfold(cfg, es).failed, key), cfg.authLimit + most - 1, from);
  }
}
