/** The circuit breaker and the origin calls that share it (edge/src/upstream.ts:20-80).

    A request waits at each of its fetches while others run, so its call is three atomic pieces: its start,
    and what follows a fetch that answered or was rejected. The log of what happened is kept beside the
    breaker's two counters; every claim is about the log.
 */
module Upstream {
  import opened Budget

  const BREAKER_THRESHOLD := 2
  const BREAKER_OPEN_MS := 30_000

  type Request = nat

  datatype Entry =
    | Checked(request: Request, at: int)
    | Called(request: Request, at: int)
    | Answered(request: Request, at: int)
    | Rejected(request: Request, at: int)

  datatype Outcome =
    | Response(attempts: nat)
    | CircuitOpen(retryAfterMs: int)
    | ConnectFailed(attempts: nat)

  datatype Flight = Calling(attempt: nat) | Done(outcome: Outcome)

  // ----- what the log says of the breaker -----

  /** Rejections since the last answer. */
  function FailuresSince(log: seq<Entry>): nat {
    if log == [] then 0
    else
      var last, rest := log[|log| - 1], log[..|log| - 1];
      if last.Answered? then 0 else FailuresSince(rest) + if last.Rejected? then 1 else 0
  }

  /** When the last rejection since the last answer came. */
  function LastFailure(log: seq<Entry>): Option<int> {
    if log == [] then None
    else
      var last, rest := log[|log| - 1], log[..|log| - 1];
      if last.Answered? then None
      else if last.Rejected? then Some(last.at)
      else LastFailure(rest)
  }

  /** At least `threshold` rejections since the last answer, the last of them under `openMs` ago. */
  predicate OpenAt(log: seq<Entry>, threshold: int, openMs: int, now: int) {
    FailuresSince(log) >= threshold && LastFailure(log).Some? && now - LastFailure(log).value < openMs
  }

  class CircuitBreaker {
    var failures: int
    var openUntil: int
    const threshold: int
    const openMs: int

    /** The fields are what the log says. */
    ghost predicate Tracks(log: seq<Entry>)
      reads this
    {
      && failures == FailuresSince(log)
      && openUntil == if LastFailure(log).Some? && FailuresSince(log) >= threshold then LastFailure(log).value + openMs
         else 0
    }

    constructor (threshold: int := BREAKER_THRESHOLD, openMs: int := BREAKER_OPEN_MS)
      ensures this.threshold == threshold && this.openMs == openMs
      ensures Tracks([])
    {
      this.threshold, this.openMs := threshold, openMs;
      failures, openUntil := 0, 0;
    }

    method RemainingOpenMs(now: int, ghost log: seq<Entry>) returns (ms: int)
      requires Tracks(log) && now >= 0
      ensures ms > 0 <==> OpenAt(log, threshold, openMs, now)
      ensures ms == if OpenAt(log, threshold, openMs, now) then LastFailure(log).value + openMs - now else 0
    {
      ms := Max(0, openUntil - now);
    }

    method RecordFailure(now: int, ghost log: seq<Entry>, ghost request: Request)
      requires Tracks(log)
      modifies this
      ensures Tracks(log + [Rejected(request, now)])
    {
      failures := failures + 1;
      if failures >= threshold {
        openUntil := now + openMs;
      }
    }

    method RecordSuccess(now: int, ghost log: seq<Entry>, ghost request: Request)
      requires Tracks(log)
      modifies this
      ensures Tracks(log + [Answered(request, now)])
    {
      failures := 0;
      openUntil := 0;
    }
  }

  // ----- requests sharing a breaker -----

  /** An isolate: its breaker's settings, its requests, and the log. */
  datatype Isolate = Isolate(threshold: int, openMs: int, flights: map<Request, Flight>, log: seq<Entry>)

  datatype Event =
    | Start(request: Request, at: int)
    | Answer(request: Request, at: int)
    | Reject(request: Request, at: int)

  predicate IsOpen(w: Isolate, at: int) { OpenAt(w.log, w.threshold, w.openMs, at) }

  function Remaining(w: Isolate, at: int): int {
    if IsOpen(w, at) then LastFailure(w.log).value + w.openMs - at else 0
  }

  predicate Possible(w: Isolate, e: Event) {
    && e.at >= 0
    && (w.log != [] ==> w.log[|w.log| - 1].at <= e.at)
    && if e.Start? then e.request !in w.flights
       else e.request in w.flights && w.flights[e.request].Calling?
  }

  function Next(w: Isolate, e: Event): Isolate
    requires Possible(w, e)
  {
    var r, at := e.request, e.at;
    match e
    case Start(_, _) =>
      if IsOpen(w, at)
      then w.(flights := w.flights[r := Done(CircuitOpen(Remaining(w, at)))], log := w.log + [Checked(r, at)])
      else w.(flights := w.flights[r := Calling(1)], log := w.log + [Checked(r, at), Called(r, at)])
    case Answer(_, _) =>
      w.(flights := w.flights[r := Done(Response(w.flights[r].attempt))], log := w.log + [Answered(r, at)])
    case Reject(_, _) =>
      var attempt := w.flights[r].attempt;
      if attempt < 2
      then w.(flights := w.flights[r := Calling(attempt + 1)], log := w.log + [Rejected(r, at), Called(r, at)])
      else w.(flights := w.flights[r := Done(ConnectFailed(2))], log := w.log + [Rejected(r, at)])
  }

  /** The requests of an isolate, each piece of a call run to its next wait. */
  class Origin {
    const breaker: CircuitBreaker
    var flights: map<Request, Flight>
    ghost var log: seq<Entry>

    ghost predicate Valid()
      reads this, breaker
    {
      breaker.Tracks(log)
    }

    ghost function Snapshot(): Isolate
      reads this
    {
      Isolate(breaker.threshold, breaker.openMs, flights, log)
    }

    constructor (threshold: int := BREAKER_THRESHOLD, openMs: int := BREAKER_OPEN_MS)
      ensures Valid() && fresh(breaker) && Snapshot() == Isolate(threshold, openMs, map[], [])
    {
      breaker := new CircuitBreaker(threshold, openMs);
      flights, log := map[], [];
    }

    /** A call up to its first fetch. */
    method Begin(request: Request, now: int)
      requires Valid() && Possible(Snapshot(), Start(request, now))
      modifies this
      ensures Valid() && Snapshot() == Next(old(Snapshot()), Start(request, now))
    {
      var remaining := breaker.RemainingOpenMs(now, log);
      TracksCalls(log, Checked(request, now));
      TracksCalls(log + [Checked(request, now)], Called(request, now));
      if remaining > 0 {
        flights := flights[request := Done(CircuitOpen(remaining))];
        log := log + [Checked(request, now)];
        return;
      }
      flights := flights[request := Calling(1)];
      assert log + [Checked(request, now)] + [Called(request, now)]
             == log + [Checked(request, now), Called(request, now)];
      log := log + [Checked(request, now), Called(request, now)];
    }

    /** A call from a fetch that answered to its end. */
    method FetchAnswered(request: Request, now: int)
      requires Valid() && Possible(Snapshot(), Answer(request, now))
      modifies this, breaker
      ensures Valid() && Snapshot() == Next(old(Snapshot()), Answer(request, now))
    {
      var attempt := flights[request].attempt;
      breaker.RecordSuccess(now, log, request);
      log := log + [Answered(request, now)];
      flights := flights[request := Done(Response(attempt))];
    }

    /** A call from a fetch that was rejected to its next fetch, or its end after the second. */
    method FetchRejected(request: Request, now: int)
      requires Valid() && Possible(Snapshot(), Reject(request, now))
      modifies this, breaker
      ensures Valid() && Snapshot() == Next(old(Snapshot()), Reject(request, now))
    {
      var attempt := flights[request].attempt;
      breaker.RecordFailure(now, log, request);
      log := log + [Rejected(request, now)];
      if attempt < 2 {
        TracksCalls(log, Called(request, now));
        assert old(log) + [Rejected(request, now)] + [Called(request, now)]
               == old(log) + [Rejected(request, now), Called(request, now)];
        flights := flights[request := Calling(attempt + 1)];
        log := log + [Called(request, now)];
      } else {
        flights := flights[request := Done(ConnectFailed(2))];
      }
    }
  }

  lemma TracksCalls(log: seq<Entry>, e: Entry)
    requires e.Checked? || e.Called?
    ensures FailuresSince(log + [e]) == FailuresSince(log) && LastFailure(log + [e]) == LastFailure(log)
  {
    assert (log + [e])[..|log|] == log;
  }

  // ----- runs -----

  /** The isolate after each of the events of a run. */
  ghost predicate IsRun(w: Isolate, events: seq<Event>)
    decreases |events|
  {
    events != [] ==> Possible(w, events[0]) && IsRun(Next(w, events[0]), events[1..])
  }

  ghost function After(w: Isolate, events: seq<Event>): Isolate
    requires IsRun(w, events)
    decreases |events|
  {
    if events == [] then w else After(Next(w, events[0]), events[1..])
  }

  function Initial(threshold: int, openMs: int): Isolate { Isolate(threshold, openMs, map[], []) }

  function Calls(log: seq<Entry>, r: Request): nat {
    if log == [] then 0 else Calls(log[..|log| - 1], r) + if log[|log| - 1].Called? && log[|log| - 1].request == r
        then 1 else 0
  }

  function Rejections(log: seq<Entry>, r: Request): nat {
    if log == [] then 0 else Rejections(log[..|log| - 1], r) + if log[|log| - 1].Rejected?
        && log[|log| - 1].request == r then 1 else 0
  }

  function Answers(log: seq<Entry>, r: Request): nat {
    if log == [] then 0 else Answers(log[..|log| - 1], r) + if log[|log| - 1].Answered? && log[|log| - 1].request == r
        then 1 else 0
  }

  /** Entry `i` is request `r`'s check, and found the breaker closed. */
  predicate CheckedClosed(w: Isolate, r: Request, i: nat) {
    i < |w.log| && w.log[i].Checked? && w.log[i].request == r && !OpenAt(w.log[..i], w.threshold, w.openMs, w.log[i].at)
  }

  /** Entry `i` is request `r`'s check, and found the breaker open for `ms` more. */
  predicate CheckedOpen(w: Isolate, r: Request, i: nat, ms: int) {
    && i < |w.log| && w.log[i].Checked? && w.log[i].request == r
    && OpenAt(w.log[..i], w.threshold, w.openMs, w.log[i].at)
    && ms == LastFailure(w.log[..i]).value + w.openMs - w.log[i].at
  }

  /** What a request's state says of the fetches it made. */
  predicate Accounted(w: Isolate, r: Request) {
    var calls, rejections, answers := Calls(w.log, r), Rejections(w.log, r), Answers(w.log, r);
    if r !in w.flights then calls == 0 && rejections == 0 && answers == 0
    else
      match w.flights[r]
      case Calling(n) => 1 <= n <= 2 && calls == n && rejections == n - 1 && answers == 0
      case Done(Response(n)) => 1 <= n <= 2 && calls == n && rejections == n - 1 && answers == 1
      case Done(ConnectFailed(n)) => n == 2 && calls == 2 && rejections == 2 && answers == 0
      case Done(CircuitOpen(_)) => calls == 0 && rejections == 0 && answers == 0
  }

  /** What a request's state says of its check. */
  ghost predicate Admitted(w: Isolate, r: Request) {
    r in w.flights ==>
      if w.flights[r].Done? && w.flights[r].outcome.CircuitOpen?
      then exists i: nat :: CheckedOpen(w, r, i, w.flights[r].outcome.retryAfterMs)
      else exists i: nat :: CheckedClosed(w, r, i)
  }

  ghost predicate CallsFollowChecks(w: Isolate) {
    forall k :: 0 <= k < |w.log| && w.log[k].Called? ==> exists i: nat :: i < k && CheckedClosed(w, w.log[k].request, i)
  }

  predicate InTimeOrder(log: seq<Entry>) {
    forall i, j :: 0 <= i < j < |log| ==> log[i].at <= log[j].at
  }

  ghost predicate Sound(w: Isolate) {
    && (forall r: Request :: Accounted(w, r) && Admitted(w, r))
    && CallsFollowChecks(w)
    && InTimeOrder(w.log)
  }

  lemma CountsGrow(log: seq<Entry>, e: Entry, r: Request)
    ensures Calls(log + [e], r) == Calls(log, r) + if e.Called? && e.request == r then 1 else 0
    ensures Rejections(log + [e], r) == Rejections(log, r) + if e.Rejected? && e.request == r then 1 else 0
    ensures Answers(log + [e], r) == Answers(log, r) + if e.Answered? && e.request == r then 1 else 0
  {
    assert (log + [e])[..|log|] == log;
  }

  lemma CountsGrowByTwo(log: seq<Entry>, e: Entry, f: Entry, r: Request)
    ensures Calls(log + [e, f], r) == Calls(log, r) + (if e.Called? && e.request == r then 1 else 0) + if f.Called?
            && f.request == r then 1 else 0
    ensures Rejections(log + [e, f], r) == Rejections(log, r) + (if e.Rejected? && e.request == r then 1 else 0)
            + if f.Rejected? && f.request == r then 1 else 0
    ensures Answers(log + [e, f], r) == Answers(log, r) + (if e.Answered? && e.request == r then 1 else 0)
            + if f.Answered? && f.request == r then 1 else 0
  {
    CountsGrow(log, e, r);
    CountsGrow(log + [e], f, r);
    assert log + [e, f] == log + [e] + [f];
  }

  lemma OthersAreAccounted(w: Isolate, e: Event, r: Request)
    requires Possible(w, e) && e.request != r && Accounted(w, r)
    ensures Accounted(Next(w, e), r)
  {
    hide OpenAt, Remaining, Calls, Rejections, Answers;
    EventCounts(w, e, r);
  }

  /** What an event adds to a request's counts. */
  lemma EventCounts(w: Isolate, e: Event, r: Request)
    requires Possible(w, e)
    ensures var w', own := Next(w, e), e.request == r;
            var fetches := own && match e case Start(_, at) => !IsOpen(w, at) case Answer(_, _) => false case Reject(_,
                _) => w.flights[r].attempt < 2;
            && Calls(w'.log, r) == Calls(w.log, r) + (if fetches then 1 else 0)
            && Rejections(w'.log, r) == Rejections(w.log, r) + (if own && e.Reject? then 1 else 0)
            && Answers(w'.log, r) == Answers(w.log, r) + if own && e.Answer? then 1 else 0
  {
    hide OpenAt, Remaining, Calls, Rejections, Answers;
    var id, at := e.request, e.at;
    match e
    case Start(_, _) =>
      CountsGrow(w.log, Checked(id, at), r);
      CountsGrowByTwo(w.log, Checked(id, at), Called(id, at), r);
    case Answer(_, _) =>
      CountsGrow(w.log, Answered(id, at), r);
    case Reject(_, _) =>
      CountsGrow(w.log, Rejected(id, at), r);
      CountsGrowByTwo(w.log, Rejected(id, at), Called(id, at), r);
  }

  lemma NextIsAccounted(w: Isolate, e: Event, r: Request)
    requires Possible(w, e) && Accounted(w, r)
    ensures Accounted(Next(w, e), r)
  {
    hide OpenAt, Remaining, Calls, Rejections, Answers;
    EventCounts(w, e, r);
    if e.request != r {
      OthersAreAccounted(w, e, r);
    }
  }

  lemma ChecksStay(w: Isolate, e: Event, r: Request, i: nat)
    requires Possible(w, e) && i < |w.log|
    ensures CheckedClosed(w, r, i) ==> CheckedClosed(Next(w, e), r, i)
    ensures forall ms :: CheckedOpen(w, r, i, ms) ==> CheckedOpen(Next(w, e), r, i, ms)
  {
    assert Next(w, e).log[..i] == w.log[..i];
  }

  lemma NextIsAdmitted(w: Isolate, e: Event, r: Request)
    requires Possible(w, e) && Admitted(w, r)
    ensures Admitted(Next(w, e), r)
  {
    var w', n := Next(w, e), |w.log|;
    if e.request == r && e.Start? {
      assert w'.log[..n] == w.log;
      assert CheckedClosed(w', r, n) || CheckedOpen(w', r, n, Remaining(w, e.at));
    } else if r in w.flights {
      if w.flights[r].Done? && w.flights[r].outcome.CircuitOpen? {
        var i: nat :| CheckedOpen(w, r, i, w.flights[r].outcome.retryAfterMs);
        ChecksStay(w, e, r, i);
      } else {
        var i: nat :| CheckedClosed(w, r, i);
        ChecksStay(w, e, r, i);
      }
    }
  }

  lemma NextCallsFollowChecks(w: Isolate, e: Event)
    requires Possible(w, e) && CallsFollowChecks(w) && Admitted(w, e.request)
    ensures CallsFollowChecks(Next(w, e))
  {
    var w', n := Next(w, e), |w.log|;
    forall k | 0 <= k < |w'.log| && w'.log[k].Called?
           ensures exists i: nat :: i < k && CheckedClosed(w', w'.log[k].request, i) {
      if k < n {
        assert w'.log[k] == w.log[k];
        var i: nat :| i < k && CheckedClosed(w, w.log[k].request, i);
        ChecksStay(w, e, w.log[k].request, i);
      } else if e.Start? {
        assert w'.log[..n] == w.log;
        assert CheckedClosed(w', e.request, n);
      } else {
        var i: nat :| CheckedClosed(w, e.request, i);
        ChecksStay(w, e, e.request, i);
      }
    }
  }

  lemma NextIsInTimeOrder(w: Isolate, e: Event)
    requires InTimeOrder(w.log) && Possible(w, e)
    ensures InTimeOrder(Next(w, e).log)
  {
  }

  lemma NextIsSound(w: Isolate, e: Event)
    requires Sound(w) && Possible(w, e)
    ensures Sound(Next(w, e))
  {
    hide Next, Possible, Accounted, Admitted, CallsFollowChecks, InTimeOrder;
    NextIsInTimeOrder(w, e);
    forall r: Request ensures Accounted(Next(w, e), r) && Admitted(Next(w, e), r) {
      NextIsAccounted(w, e, r);
      NextIsAdmitted(w, e, r);
    }
    NextCallsFollowChecks(w, e);
  }

  lemma {:induction false} RunsFromSound(w: Isolate, events: seq<Event>)
    requires Sound(w) && IsRun(w, events)
    ensures Sound(After(w, events))
    ensures After(w, events).threshold == w.threshold && After(w, events).openMs == w.openMs
    decreases |events|
  {
    if events != [] {
      NextIsSound(w, events[0]);
      RunsFromSound(Next(w, events[0]), events[1..]);
    }
  }

  /** However requests interleave: each makes as many fetches as its outcome says, at most two; one refused for
      an open breaker found it open for the time it is told; any other found it closed; and every fetch follows
      its request's check. */
  lemma RunsAreSound(threshold: int, openMs: int, events: seq<Event>)
    requires IsRun(Initial(threshold, openMs), events)
    ensures Sound(After(Initial(threshold, openMs), events))
  {
    RunsFromSound(Initial(threshold, openMs), events);
  }

  lemma AtMostTwoFetches(threshold: int, openMs: int, events: seq<Event>, r: Request)
    requires IsRun(Initial(threshold, openMs), events)
    ensures Calls(After(Initial(threshold, openMs), events).log, r) <= 2
  {
    RunsAreSound(threshold, openMs, events);
    assert Accounted(After(Initial(threshold, openMs), events), r);
  }

  /** With the shipped settings, the second rejection in a row opens the breaker for 30 s, and the first does not. */
  lemma SecondRejectionOpens(w: Isolate, e: Event, now: int)
    requires Possible(w, e) && e.Reject? && w.threshold == BREAKER_THRESHOLD && w.openMs == BREAKER_OPEN_MS
    ensures IsOpen(Next(w, e), now) <==> FailuresSince(w.log) >= 1 && now < e.at + 30_000
  {
    var rejected := w.log + [Rejected(e.request, e.at)];
    assert rejected[..|w.log|] == w.log;
    assert FailuresSince(rejected) == FailuresSince(w.log) + 1 && LastFailure(rejected) == Some(e.at);
    TracksCalls(rejected, Called(e.request, e.at));
    assert w.log + [Rejected(e.request, e.at), Called(e.request, e.at)] == rejected + [Called(e.request, e.at)];
  }

  // ----- fetches made while the breaker is open -----

  /** Entry `o` opens the breaker. */
  predicate OpensAt(w: Isolate, o: nat) {
    && o < |w.log| && w.log[o].Rejected?
    && !OpenAt(w.log[..o], w.threshold, w.openMs, w.log[o].at)
    && OpenAt(w.log[..o + 1], w.threshold, w.openMs, w.log[o].at)
  }

  predicate OpenThroughout(w: Isolate, o: nat, k: nat) {
    k < |w.log| && forall m :: o < m <= k ==> OpenAt(w.log[..m], w.threshold, w.openMs, w.log[m].at)
  }

  /** Only a rejection opens it. */
  lemma OpenedByARejection(w: Isolate, o: nat)
    requires InTimeOrder(w.log) && o + 1 < |w.log|
    requires !OpenAt(w.log[..o], w.threshold, w.openMs, w.log[o].at)
    requires OpenAt(w.log[..o + 1], w.threshold, w.openMs, w.log[o + 1].at)
    ensures OpensAt(w, o)
  {
    assert w.log[..o + 1][..o] == w.log[..o];
  }

  /** Going back from entry `k`, where it is open, to the entry that opened it; entry `i` found it closed. */
  lemma {:induction false} OpeningBetween(w: Isolate, i: nat, k: nat) returns (o: nat)
    requires InTimeOrder(w.log) && i < k && k < |w.log| && w.log[i].Checked?
    requires !OpenAt(w.log[..i], w.threshold, w.openMs, w.log[i].at)
    requires OpenAt(w.log[..k], w.threshold, w.openMs, w.log[k].at)
    ensures i < o < k && OpensAt(w, o) && OpenThroughout(w, o, k)
    decreases k
  {
    hide OpenAt;
    if OpenAt(w.log[..k - 1], w.threshold, w.openMs, w.log[k - 1].at) {
      o := OpeningBetween(w, i, k - 1);
    } else {
      o := k - 1;
      OpenedByARejection(w, o);
    }
  }

  /** A fetch made while the breaker is open belongs to a request checked before it opened. */
  lemma FetchesWhileOpenBeganBefore(threshold: int, openMs: int, events: seq<Event>, k: nat)
    requires IsRun(Initial(threshold, openMs), events)
    requires var log := After(Initial(threshold, openMs), events).log;
             k < |log| && log[k].Called? && OpenAt(log[..k], threshold, openMs, log[k].at)
    ensures var w := After(Initial(threshold, openMs), events);
            exists i: nat, o: nat :: i < o < k && CheckedClosed(w, w.log[k].request, i) && OpensAt(w, o)
                && OpenThroughout(w, o, k)
  {
    RunsFromSound(Initial(threshold, openMs), events);
    var w := After(Initial(threshold, openMs), events);
    assert CallsFollowChecks(w);
    var i: nat :| i < k && CheckedClosed(w, w.log[k].request, i);
    var o := OpeningBetween(w, i, k);
  }

  // ----- how many fetches an open breaker still lets through -----

  function AllCalls(log: seq<Entry>): nat {
    if log == [] then 0 else AllCalls(log[..|log| - 1]) + if log[|log| - 1].Called? then 1 else 0
  }

  /** The requests waiting at their first fetch. */
  function AtFirst(flights: map<Request, Flight>): set<Request> {
    set r | r in flights && flights[r] == Calling(1)
  }

  /** Every request that starts in this run finds the breaker open. */
  ghost predicate ShutOut(w: Isolate, events: seq<Event>)
    requires IsRun(w, events)
    decreases |events|
  {
    events != [] ==> (events[0].Start? ==> IsOpen(w, events[0].at)) && ShutOut(Next(w, events[0]), events[1..])
  }

  lemma AllCallsGrow(log: seq<Entry>, e: Entry)
    ensures AllCalls(log + [e]) == AllCalls(log) + if e.Called? then 1 else 0
  {
    assert (log + [e])[..|log|] == log;
  }

  lemma OneFetchOfAFirst(w: Isolate, e: Event)
    requires Possible(w, e) && (e.Start? ==> IsOpen(w, e.at))
    requires e.Reject? ==> w.flights[e.request].attempt in {1, 2}
    ensures AllCalls(Next(w, e).log) + |AtFirst(Next(w, e).flights)| <= AllCalls(w.log) + |AtFirst(w.flights)|
  {
    hide OpenAt, Remaining, AllCalls;
    var r, at, firsts, firsts' := e.request, e.at, AtFirst(w.flights), AtFirst(Next(w, e).flights);
    assert firsts' == firsts - {r};
    match e
    case Start(_, _) =>
      AllCallsGrow(w.log, Checked(r, at));
    case Answer(_, _) =>
      AllCallsGrow(w.log, Answered(r, at));
    case Reject(_, _) =>
      AllCallsGrow(w.log, Rejected(r, at));
      AllCallsGrow(w.log + [Rejected(r, at)], Called(r, at));
      assert w.log + [Rejected(r, at), Called(r, at)] == w.log + [Rejected(r, at)] + [Called(r, at)];
  }

  /** While every request that starts is refused, the origin gets at most one more fetch from each request
      that was waiting at its first. */
  lemma {:induction false} FewFetchesWhileOpen(w: Isolate, events: seq<Event>)
    requires Sound(w) && IsRun(w, events) && ShutOut(w, events)
    ensures AllCalls(After(w, events).log) <= AllCalls(w.log) + |AtFirst(w.flights)|
    decreases |events|
  {
    if events != [] {
      assert Accounted(w, events[0].request);
      OneFetchOfAFirst(w, events[0]);
      NextIsSound(w, events[0]);
      FewFetchesWhileOpen(Next(w, events[0]), events[1..]);
    }
  }
}
