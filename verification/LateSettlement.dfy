/** Why the ceilings ask for settlements that fit: runs of the governor that pass a ceiling, one by lateness alone,
    one only because a settlement found an expiry overdue. All are runs without a Neon key, whose only alarm is
    the one at midnight.
 */
module LateSettlement {
  import opened Budget
  import opened Pacing
  import opened GovernorModel
  import opened Ledger
  import opened Accounts
  import opened Reserves
  import opened Invariant
  import opened Events
  import opened Punctual
  import opened Overruns
  import opened Answers

  // ----- a request that fits is admitted -----

  /** A light analysis on the first day. */
  function Light(now: int, prefix: Prefix): Lease { AnalysisLease(now, prefix, false) }

  /** What a governor has billed, reserved and issued on the first day leaves room for a lease. */
  ghost predicate HasSpare(w: Live, l: Lease) {
    && (forall who: Group :: !who.Everyone? && Member(l, who) ==>
          CuSeconds(BilledMs(w.g.hist.ledger, who))
          + CuSeconds(|Cover(w.g.leases, who) + Provisional(l) - Points(w.st.charged)|) <= LimitS(false, who))
    && (EgressDue(w.g.leases, w.g.hist.ledger, l.day) + l.egress) as real <= EGRESS_DAILY_CONSERVATIVE_BYTES
    && |w.g.hist.issued| < PREFIX_DAILY_ANALYSES
  }

  lemma SpareCounts(h: History, l: Lease)
    requires |h.issued| < PREFIX_DAILY_ANALYSES && l.lookup == 0 && l.heavy == 0
    ensures CountSpent(h, l).None?
  {
    var network := OnNetwork(Network(l.day, l.prefix));
    assert |h.issued.Keys| == |h.issued|;
    SubsetSize(CountingForShare(h, network), h.issued.Keys);
    SubsetSize(AnalysesOf(h, network), h.issued.Keys);
    SubsetSize(Counting(h, OnDay(l.day)), h.issued.Keys);
  }

  lemma SpareFigures(w: Live, now: int, l: Lease)
    requires HasSpare(w, l) && !w.g.neonKey && l == Light(now, l.prefix)
    ensures FigureSpent(w, now, l).None?
  {
    hide Cover, Points, BilledMs, BilledEgress, EgressHeld, Span;
    assert Member(l, OnDay(l.day)) && Member(l, OnNetwork(Network(l.day, l.prefix)));
  }

  /** A light analysis with room, when nothing is stale, is admitted: its lease is added and no figure changes. */
  lemma SpareRequest(g: Gov, now: int, id: LeaseId, prefix: Prefix)
    requires Good(g) && !g.neonKey && g.hist.clock <= now && NoneStale(g.leases, now) && id !in g.hist.issued
    requires HasSpare(Live(g, Stored(g)), Light(now, prefix))
    ensures var l := Light(now, prefix);
            var e := Request(now, id, l, []);
            var g' := Next(g, e);
            && Possible(g, e)
            && g'.leases == g.leases[id := l]
            && g'.hist == g.hist.(clock := now, issued := g.hist.issued[id := l])
            && Stored(g').charged == Stored(g).charged && !g'.neonKey
  {
    hide Good, Holds, Tables, Row, TotalsAccounted, CountDenial, ComputeDenial, CountSpent, FigureSpent, HasSpare,
         Admit, Load,
         NoneStale, Tells;
    var l, t := Light(now, prefix), Tick(g, now);
    NothingStale(g, now);
    TickIsGood(g, now);
    LoadHolds(t);
    LoadKeepsWindows(t);
    var w := Live(t, Load(t.row, now));
    SameSpare(Live(g, Stored(g)), w, l);
    IssuedAreFew(w, l);
    Parts(w);
    StoredParts(t);
    SpareCounts(t.hist, l);
    SpareFigures(w, now, l);
    CountAnswer(Live(t, Stored(t)), now, l);
    Tell(CountDenial(t, now, l), CountSpent(t.hist, l), Live(t, Stored(t)), now);
    FigureAnswer(w, now, l);
    Tell(ComputeDenial(w.g, w.st, now, l.prefix, l.egress), FigureSpent(w, now, l), w, now);
    AdmitFigures(w, now, id, l);
    assert Next(g, Request(now, id, l, [])) == Admit(w, now, id, l);
    AdmitKeepsKey(w, now, id, l);
  }

  lemma IssuedAreFew(w: Live, l: Lease)
    requires HasSpare(w, l)
    ensures |w.g.hist.issued| < PREFIX_DAILY_ANALYSES
  {
  }

  lemma NothingStale(g: Gov, now: int)
    requires NoneStale(g.leases, now)
    ensures StaleOrder(g.leases, now, [])
  {
  }

  lemma AdmitKeepsKey(w: Live, now: int, id: LeaseId, l: Lease)
    ensures Admit(w, now, id, l).neonKey == w.g.neonKey
  {
  }

  lemma SameSpare(w: Live, w': Live, l: Lease)
    requires HasSpare(w, l) && w'.g.leases == w.g.leases && w'.st.charged == w.st.charged
    requires w'.g.hist.ledger == w.g.hist.ledger && w'.g.hist.issued == w.g.hist.issued
    ensures HasSpare(w', l)
  {
    hide Cover, Points;
  }

  // ----- a settlement, exactly -----

  /** The instants remembered after `w` was charged. */
  ghost function Remembered(known: set<int>, w: set<int>, horizon: int): set<int> {
    set t | t in known + w && ReachesPast(known + w, t, horizon)
  }

  lemma RememberedIs(charged: seq<Interval>, window: Interval, horizon: int)
    ensures Points(AddCharged(charged, window, horizon)) == Remembered(Points(charged), Instants(window), horizon)
  {
    forall t ensures t in Points(AddCharged(charged, window, horizon))
           <==> t in Remembered(Points(charged), Instants(window), horizon) {
      AddChargedExact(charged, window, horizon, t);
    }
  }

  /** The end of a settled analysis without a reported DB time. */
  function Report(now: int, id: LeaseId): Event { Settlement(now, id, Computed, None) }

  lemma ReportIs(g: Gov, now: int, id: LeaseId)
    requires Good(g) && g.hist.clock <= now && id in g.leases && !g.neonKey
    ensures var l := g.leases[id];
            var w, g' := Instants(Window(l.admittedAt, now)), Next(g, Report(now, id));
            && Possible(g, Report(now, id)) && g'.leases == g.leases - {id} && !g'.neonKey
            && g'.hist.clock == now && g'.hist.issued == g.hist.issued
            && Points(Stored(g').charged) == Remembered(Points(Stored(g).charged), w, now - LEASE_TTL_MS)
            && (forall who :: BilledMs(g'.hist.ledger, who)
                              == BilledMs(g.hist.ledger, who)
                                 + if Member(l, who) then |w - Points(Stored(g).charged)| else 0)
            && (forall d :: EgressDue(g'.leases, g'.hist.ledger, d) == EgressDue(g.leases, g.hist.ledger, d))
  {
    hide Good, Points, Load, IsCharge, SettlementCharge, Settle, EndAndBill, Remembered, EgressDue, BilledMs, Window,
         AddCharged;
    var t, l, horizon := Tick(g, now), g.leases[id], now - LEASE_TTL_MS;
    TickIsGood(g, now);
    LoadKeepsWindows(t);
    SettleIs(t, now, id, Computed, None);
    var w, c := Live(t, Load(t.row, now)), SettlementCharge(t, now, id, Computed, None);
    Ended(w, Settled(Computed, None), c, horizon);
    RememberedIs(w.st.charged, c.window, horizon);
    forall who ensures BilledMs(t.hist.ledger + [c], who)
                       == BilledMs(t.hist.ledger, who)
                          + if Member(l, who) then |Instants(c.window) - Points(w.st.charged)| else 0 {
      LedgerSnoc(t.hist.ledger, c, who);
    }
    forall d ensures EgressDue(t.leases - {id}, t.hist.ledger + [c], d) == EgressDue(t.leases, t.hist.ledger, d) {
      DueStays(t.leases, t.hist.ledger, c, d);
    }
  }

  lemma DueStays(leases: map<LeaseId, Lease>, ledger: seq<Charge>, c: Charge, d: Day)
    requires c.id in leases && c.lease == leases[c.id]
    ensures EgressDue(leases - {c.id}, ledger + [c], d) == EgressDue(leases, ledger, d)
  {
    LedgerSnoc(ledger, c, OnDay(d));
    HeldRemove(leases, c.id, OnDay(d));
  }

  lemma Ended(w: Live, e: Ending, c: Charge, keepAfter: int)
    requires IsCharge(w, c, keepAfter)
    ensures var b := EndAndBill(w, e, c, keepAfter);
            && b.g.leases == w.g.leases - {c.id} && b.g.neonKey == w.g.neonKey
            && b.g.hist.clock == w.g.hist.clock && b.g.hist.issued == w.g.hist.issued
            && b.g.hist.ledger == w.g.hist.ledger + [c] && b.st.charged == AddCharged(w.st.charged, c.window, keepAfter)
            && c.addedMs == |Instants(c.window) - Points(w.st.charged)| && c.lease == w.g.leases[c.id]
  {
    hide AddCharged, LateMs, LostMs, Cover;
  }

  // ----- where a run has come -----

  /** The figures of a run on the first day, by two networks `a` and `b`. */
  datatype Sketch = Sketch(now: int, leases: map<LeaseId, Lease>, known: set<int>, a: int, b: int, day: int,
                           ids: set<LeaseId>)

  const START := Sketch(0, map[], {}, 0, 0, 0, {})

  function NetworkA(): Group { OnNetwork(Network(0, "a")) }

  function NetworkB(): Group { OnNetwork(Network(0, "b")) }

  ghost predicate Shows(g: Gov, s: Sketch) {
    && Good(g) && !g.neonKey && g.hist.clock == s.now && g.leases == s.leases && Points(Stored(g).charged) == s.known
    && BilledMs(g.hist.ledger, NetworkA()) == s.a && BilledMs(g.hist.ledger, NetworkB()) == s.b
    && BilledMs(g.hist.ledger, OnDay(0)) == s.day
    && g.hist.issued.Keys == s.ids && EgressDue(g.leases, g.hist.ledger, 0) <= LIGHT_EGRESS_BYTES * |s.ids|
  }

  ghost predicate Reaches(run: seq<Event>, s: Sketch) {
    IsRun(false, run) && Shows(After(false, run), s)
  }

  /** The milliseconds a group has billed and would have reserved with a window more. */
  ghost function WouldUse(s: Sketch, who: Group, billed: int, candidate: set<int>): int {
    billed + |Cover(s.leases, who) + candidate - s.known|
  }

  lemma StartIsReached()
    ensures Reaches([], START) && NeverOverdue(false, []) && AlwaysInTime(false, [])
  {
    StartShows();
    hide Shows;
  }

  lemma StartShows()
    ensures Shows(Start(false), START)
  {
    hide Good, EgressHeld;
    StartIsGood(false);
    NothingHeld();
  }

  lemma NothingHeld()
    ensures EgressHeld(map[], OnDay(0)) == 0
  {
  }

  lemma OneMoreEvent(run: seq<Event>, e: Event)
    ensures After(false, run + [e]) == Next(After(false, run), e)
    ensures IsRun(false, run + [e]) <==> IsRun(false, run) && Possible(After(false, run), e)
    ensures NeverOverdue(false, run + [e]) <==> NeverOverdue(false, run) && NoneOverdue(After(false, run), e)
    ensures AlwaysInTime(false, run + [e]) <==> AlwaysInTime(false, run) && InTime(After(false, run), e)
  {
    hide Next, Possible, NoneOverdue, InTime;
    assert (run + [e])[..|run|] == run;
  }

  /** A network may use 1 045 161 ms of a day without ground truth, and all together 5 225 806. */
  ghost predicate MayAdmit(s: Sketch, now: int, prefix: Prefix) {
    var candidate := Provisional(Light(now, prefix));
    && WouldUse(s, OnNetwork(Network(0, prefix)), if prefix == "a" then s.a else s.b, candidate) <= 1_045_161
    && WouldUse(s, OnDay(0), s.day, candidate) <= 5_225_806
  }

  lemma AdmitStep(run: seq<Event>, s: Sketch, now: int, id: LeaseId, prefix: Prefix)
    requires Reaches(run, s) && s.now <= now < DAY_MS && 0 <= now
    requires id !in s.ids && |s.ids| < 10 && (prefix == "a" || prefix == "b")
    requires forall other :: other in s.leases ==> now - LEASE_TTL_MS <= s.leases[other].admittedAt
    requires MayAdmit(s, now, prefix)
    ensures var run' := run + [Request(now, id, Light(now, prefix), [])];
            && Reaches(run', s.(now := now, leases := s.leases[id := Light(now, prefix)], ids := s.ids + {id}))
            && (NeverOverdue(false, run) ==> NeverOverdue(false, run'))
            && (AlwaysInTime(false, run) ==> AlwaysInTime(false, run'))
  {
    hide IsRun, After, Good, Next, Possible, HasSpare, NeverOverdue, AlwaysInTime, BilledMs, EgressDue, Points;
    var g, l := After(false, run), Light(now, prefix);
    var e := Request(now, id, l, []);
    ShownSpare(g, s, now, prefix);
    hide MayAdmit;
    SpareRequest(g, now, id, prefix);
    OneMoreEvent(run, e);
    NextIsGood(g, e);
    ShowsAdmitted(g, Next(g, e), s, now, id, l);
    RequestsAreNoSettlement(g, now, id, l);
    hide Shows;
  }

  lemma RequestsAreNoSettlement(g: Gov, now: int, id: LeaseId, l: Lease)
    ensures NoneOverdue(g, Request(now, id, l, [])) && InTime(g, Request(now, id, l, []))
  {
  }

  lemma ShowsAdmitted(g: Gov, g': Gov, s: Sketch, now: int, id: LeaseId, l: Lease)
    requires Shows(g, s) && Good(g') && !g'.neonKey && id !in s.ids && l.day == 0 && l.egress == LIGHT_EGRESS_BYTES
    requires g'.leases == g.leases[id := l] && g'.hist == g.hist.(clock := now, issued := g.hist.issued[id := l])
    requires Stored(g').charged == Stored(g).charged
    ensures Shows(g', s.(now := now, leases := s.leases[id := l], ids := s.ids + {id}))
  {
    hide Good, BilledMs, EgressDue, Points, Stored;
    DueGrows(g, id, l);
    OneMoreDue(EgressDue(g.leases, g.hist.ledger, 0), s.ids, id);
  }

  lemma OneMoreDue(due: int, ids: set<LeaseId>, id: LeaseId)
    requires due <= LIGHT_EGRESS_BYTES * |ids| && id !in ids
    ensures due + LIGHT_EGRESS_BYTES <= LIGHT_EGRESS_BYTES * |ids + {id}|
  {
    assert |ids + {id}| == |ids| + 1;
  }

  lemma DueGrows(g: Gov, id: LeaseId, l: Lease)
    requires id !in g.hist.issued && Good(g)
    ensures id !in g.leases
    ensures EgressDue(g.leases[id := l], g.hist.ledger, l.day) == EgressDue(g.leases, g.hist.ledger, l.day) + l.egress
  {
    FreshIsNotLive(g, id);
    hide Good;
    HeldInsert(g.leases, id, l, OnDay(l.day));
  }

  lemma ShownSpare(g: Gov, s: Sketch, now: int, prefix: Prefix)
    requires Shows(g, s) && 0 <= now < DAY_MS && |s.ids| < 10 && (prefix == "a" || prefix == "b")
             && MayAdmit(s, now, prefix)
    ensures HasSpare(Live(g, Stored(g)), Light(now, prefix))
  {
    hide Good, Cover, Points, Provisional, EgressDue, BilledMs;
    var l, w := Light(now, prefix), Live(g, Stored(g));
    assert |g.hist.issued.Keys| == |g.hist.issued|;
    forall who: Group | !who.Everyone? && Member(l, who)
      ensures CuSeconds(BilledMs(g.hist.ledger, who))
              + CuSeconds(|Cover(g.leases, who) + Provisional(l) - Points(w.st.charged)|)
           <= LimitS(false, who)
    {
      assert who == OnDay(0) || who == OnNetwork(Network(0, prefix));
      CuSecondsAdds(BilledMs(g.hist.ledger, who), |Cover(g.leases, who) + Provisional(l) - Points(w.st.charged)|);
    }
  }

  /** The figures after a report. */
  ghost function Reported(s: Sketch, now: int, id: LeaseId): Sketch
    requires id in s.leases
  {
    var l := s.leases[id];
    var w := Instants(Window(l.admittedAt, now));
    var added := |w - s.known|;
    Sketch(now, s.leases - {id}, Remembered(s.known, w, now - LEASE_TTL_MS),
           if Member(l, NetworkA()) then s.a + added else s.a, if Member(l, NetworkB()) then s.b + added else s.b,
           if Member(l, OnDay(0)) then s.day + added else s.day, s.ids)
  }

  lemma ReportStep(run: seq<Event>, s: Sketch, now: int, id: LeaseId)
    requires Reaches(run, s) && s.now <= now && id in s.leases
    ensures var run' := run + [Report(now, id)];
            && Reaches(run', Reported(s, now, id))
            && (NeverOverdue(false, run) && NoneStale(s.leases, now) ==> NeverOverdue(false, run'))
            && (AlwaysInTime(false, run) && now <= s.leases[id].admittedAt + PROVISIONAL_BUSY_MS ==>
                AlwaysInTime(false, run'))
  {
    hide IsRun, After, Good, Next, Possible, NeverOverdue, AlwaysInTime, BilledMs, EgressDue, Points, NoneStale,
         Remembered, Window, Member;
    var g := After(false, run);
    ReportIs(g, now, id);
    OneMoreEvent(run, Report(now, id));
    NextIsGood(g, Report(now, id));
  }

  lemma NothingCovered(who: Group)
    ensures Cover(map[], who) == {}
  {
  }

  lemma OneCovered(id: LeaseId, l: Lease, who: Group)
    ensures Cover(map[id := l], who) == if Member(l, who) then Provisional(l) else {}
  {
    NothingCovered(who);
    CoverInsert(map[], id, l, who);
  }

  /** A set within a span is no larger. */
  lemma AtMostSpan(s: set<int>, from: int, to: int)
    requires from <= to && forall t :: t in s ==> from <= t < to
    ensures |s| <= to - from
  {
    SpanSize(from, to);
    SubsetSize(s, Span(from, to));
  }

  lemma ExactlySpan(s: set<int>, from: int, to: int)
    requires from <= to && forall t :: t in s <==> from <= t < to
    ensures s == Span(from, to) && |s| == to - from
  {
    SpanSize(from, to);
    assert s == Span(from, to);
  }

  /** With no lease live, a window of which all before `from` was charged. */
  lemma AloneFits(s: Sketch, now: int, prefix: Prefix, from: int)
    requires s.leases == map[] && now <= from <= now + 390_000
    requires forall t :: now <= t < from ==> t in s.known
    requires (if prefix == "a" then s.a else s.b) + now + 390_000 - from <= 1_045_161
    requires s.day + now + 390_000 - from <= 5_225_806
    ensures MayAdmit(s, now, prefix)
  {
    NothingCovered(OnNetwork(Network(0, prefix)));
    NothingCovered(OnDay(0));
    hide Cover;
    var candidate := Provisional(Light(now, prefix));
    assert {} + candidate == candidate;
    AtMostSpan(candidate - s.known, from, now + 390_000);
  }

  /** A report for a lease of network `a`, of whose window all before `from` was charged and nothing after it. */
  lemma ReportedOfA(s: Sketch, now: int, id: LeaseId, l: Lease, from: int)
    requires id in s.leases && s.leases[id] == l && l == Light(l.admittedAt, "a") && l.day == 0
    requires l.admittedAt <= from <= now + 300_000
    requires forall t :: l.admittedAt <= t < from ==> t in s.known
    requires forall t :: from <= t < now + 300_000 ==> t !in s.known
    ensures var added := now + 300_000 - from;
            var known := Remembered(s.known, Instants(Window(l.admittedAt, now)), now - LEASE_TTL_MS);
            Reported(s, now, id) == Sketch(now, s.leases - {id}, known, s.a + added, s.b, s.day + added, s.ids)
  {
    hide Remembered;
    ExactlySpan(Instants(Window(l.admittedAt, now)) - s.known, from, now + 300_000);
    assert Member(l, NetworkA()) && Member(l, OnDay(0)) && !Member(l, NetworkB());
  }

  /** Nothing at or after the horizon is forgotten. */
  lemma RememberedAll(known: set<int>, w: set<int>, horizon: int)
    requires forall t :: t in known + w ==> t >= horizon
    ensures Remembered(known, w, horizon) == known + w
  {
  }

  // ----- two hours late -----

  /** One analysis, settled two hours after its admission. */
  function TwoHoursLate(): seq<Event> {
    FirstRun() + [Report(7_200_000, "1")]
  }

  function FirstRun(): seq<Event> { [] + [Request(0, "1", Light(0, "a"), [])] }

  function First(): Sketch { Sketch(0, map["1" := Light(0, "a")], {}, 0, 0, 0, {"1"}) }

  lemma FirstSketch()
    ensures START.(now := 0, leases := START.leases["1" := Light(0, "a")], ids := START.ids + {"1"}) == First()
  {
  }

  lemma FirstAdmission()
    ensures Reaches(FirstRun(), First()) && NeverOverdue(false, FirstRun()) && AlwaysInTime(false, FirstRun())
  {
    hide Reaches, NeverOverdue, AlwaysInTime, MayAdmit;
    StartIsReached();
    AloneFits(START, 0, "a", 0);
    FirstSketch();
    AdmitStep([], START, 0, "1", "a");
  }

  lemma FirstDay()
    ensures Reported(First(), 7_200_000, "1").day == 7_500_000
  {
    ReportedOfA(First(), 7_200_000, "1", Light(0, "a"), 0);
    hide Reported, Remembered;
  }

  /** A day without ground truth is billed more than its 90/31 CU-h by one late settlement. */
  lemma LateSettlementPassesTheDay()
    ensures IsRun(false, TwoHoursLate()) && !Within(After(false, TwoHoursLate()), OnDay(0))
  {
    hide IsRun, After, NeverOverdue, AlwaysInTime, Reported, Good, Within, Points, EgressDue;
    FirstAdmission();
    ReportStep(FirstRun(), First(), 7_200_000, "1");
    FirstDay();
    PassesLimit(After(false, TwoHoursLate()), OnDay(0), 7_500_000);
  }

  // ----- late alone -----

  /** Two analyses of one network, each settled as late as its time to live allows, the second admitted when the first
      was settled. */
  function LateRun(): seq<Event> {
    FirstRun() + [Report(600_000, "1")] + [Request(600_000, "2", Light(600_000, "a"), [])] + [Report(1_200_000, "2")]
  }

  ghost function Second(): Sketch { Sketch(600_000, map[], Span(0, 900_000), 900_000, 0, 900_000, {"1"}) }

  ghost function Third(): Sketch {
    Sketch(600_000, map["2" := Light(600_000, "a")], Span(0, 900_000), 900_000, 0, 900_000, {"1", "2"})
  }

  lemma FirstReported()
    ensures Reported(First(), 600_000, "1") == Second()
  {
    hide Remembered, Reported, Span;
    ReportedOfA(First(), 600_000, "1", Light(0, "a"), 0);
    FirstRemembered();
    assert First().leases - {"1"} == map[];
  }

  lemma FirstRemembered()
    ensures Remembered({}, Instants(Window(0, 600_000)), 0) == Span(0, 900_000)
  {
    RememberedAll({}, Instants(Window(0, 600_000)), 0);
    hide Remembered;
    assert {} + Instants(Window(0, 600_000)) == Span(0, 900_000);
  }

  lemma ThirdSketch()
    ensures Second().(now := 600_000, leases := Second().leases["2" := Light(600_000, "a")],
                      ids := Second().ids + {"2"}) == Third()
  {
  }

  lemma SecondFits()
    ensures MayAdmit(Second(), 600_000, "a")
  {
    AloneFits(Second(), 600_000, "a", 900_000);
  }

  lemma ThirdReported()
    ensures Reported(Third(), 1_200_000, "2").a == 1_500_000
  {
    ReportedOfA(Third(), 1_200_000, "2", Light(600_000, "a"), 900_000);
    hide Remembered, Reported;
  }

  /** No settlement finds an expiry overdue, and yet a network is billed more than its fifth of a day. */
  lemma LatenessAlonePassesTheShare()
    ensures IsRun(false, LateRun()) && NeverOverdue(false, LateRun()) && !Within(After(false, LateRun()), NetworkA())
  {
    hide IsRun, After, NeverOverdue, AlwaysInTime, Reported, Remembered, Good, Within, Points, EgressDue, MayAdmit,
         Shows, Span;
    FirstAdmission();
    ReportStep(FirstRun(), First(), 600_000, "1");
    FirstReported();
    var run := FirstRun() + [Report(600_000, "1")];
    SecondFits();
    AdmitStep(run, Second(), 600_000, "2", "a");
    ThirdSketch();
    run := run + [Request(600_000, "2", Light(600_000, "a"), [])];
    ReportStep(run, Third(), 1_200_000, "2");
    ThirdReported();
    ShownUse(After(false, LateRun()), Reported(Third(), 1_200_000, "2"));
    PassesLimit(After(false, LateRun()), NetworkA(), 1_500_000);
  }

  /** What a sketch shows of the network `a`. */
  lemma ShownUse(g: Gov, s: Sketch)
    requires Shows(g, s)
    ensures Good(g) && !g.neonKey && BilledMs(g.hist.ledger, NetworkA()) == s.a
    ensures ReservedMs(g.leases, NetworkA(), Stored(g).charged) == |Cover(s.leases, NetworkA()) - s.known|
  {
    hide Good;
  }

  /** A group that has been billed this much is not within its ceiling. */
  lemma PassesLimit(g: Gov, who: Group, ms: int)
    requires Good(g) && !g.neonKey && BilledMs(g.hist.ledger, who) + ReservedMs(g.leases, who, Stored(g).charged) >= ms
    requires CuSeconds(ms) > LimitS(false, who)
    ensures !Within(g, who)
  {
    hide Tables, Charges, BilledMs, ReservedMs;
    CuSecondsMonotone(ms, StoredUseMs(g, who));
  }

  // ----- an overdue expiry alone -----

  /** Two analyses of network `a` settled in time, a third whose settlement is lost, and one of network `b`, settled in
      time but after the third's expiry was due: its horizon is past the end of a window the third still covers. */
  function OverdueRun(): seq<Event> {
    ThreeOfA() + [Request(1_330_000, "4", Light(1_330_000, "b"), [])] + [Report(1_395_000, "4")]
  }

  function ThreeOfA(): seq<Event> {
    FirstRun() + [Report(10_000, "1")]
    + [Request(400_000, "2", Light(400_000, "a"), [])] + [Report(490_000, "2")]
    + [Request(740_000, "3", Light(740_000, "a"), [])]
  }

  ghost function OneDone(): Sketch { Sketch(10_000, map[], Span(0, 310_000), 310_000, 0, 310_000, {"1"}) }

  ghost function TwoLive(): Sketch {
    Sketch(400_000, map["2" := Light(400_000, "a")], Span(0, 310_000), 310_000, 0, 310_000, {"1", "2"})
  }

  ghost function TwoWindows(): set<int> { Span(0, 310_000) + Span(400_000, 790_000) }

  ghost function TwoDone(): Sketch { Sketch(490_000, map[], TwoWindows(), 700_000, 0, 700_000, {"1", "2"}) }

  ghost function ThreeLive(): Sketch {
    Sketch(740_000, map["3" := Light(740_000, "a")], TwoWindows(), 700_000, 0, 700_000, {"1", "2", "3"})
  }

  ghost function FourLive(): Sketch {
    Sketch(1_330_000, map["3" := Light(740_000, "a"), "4" := Light(1_330_000, "b")], TwoWindows(), 700_000, 0, 700_000,
           {"1", "2", "3", "4"})
  }

  lemma OneReported()
    ensures Reported(First(), 10_000, "1") == OneDone()
  {
    hide Remembered, Reported, Span;
    ReportedOfA(First(), 10_000, "1", Light(0, "a"), 0);
    OneRemembered();
    assert First().leases - {"1"} == map[];
  }

  lemma OneRemembered()
    ensures Remembered({}, Instants(Window(0, 10_000)), -590_000) == Span(0, 310_000)
  {
    RememberedAll({}, Instants(Window(0, 10_000)), -590_000);
    hide Remembered;
    assert {} + Instants(Window(0, 10_000)) == Span(0, 310_000);
  }

  lemma TwoSketch()
    ensures OneDone().(now := 400_000, leases := OneDone().leases["2" := Light(400_000, "a")],
                       ids := OneDone().ids + {"2"}) == TwoLive()
  {
  }

  lemma TwoReported()
    ensures Reported(TwoLive(), 490_000, "2") == TwoDone()
  {
    hide Remembered, Reported;
    ReportedOfA(TwoLive(), 490_000, "2", Light(400_000, "a"), 400_000);
    TwoRemembered();
    hide Span;
    assert TwoLive().leases - {"2"} == map[];
  }

  lemma TwoRemembered()
    ensures Remembered(Span(0, 310_000), Instants(Window(400_000, 490_000)), -110_000) == TwoWindows()
  {
    RememberedAll(Span(0, 310_000), Instants(Window(400_000, 490_000)), -110_000);
  }

  lemma ThreeFits()
    ensures MayAdmit(TwoDone(), 740_000, "a")
  {
    AloneFits(TwoDone(), 740_000, "a", 790_000);
  }

  lemma ThreeSketch()
    ensures TwoDone().(now := 740_000, leases := TwoDone().leases["3" := Light(740_000, "a")],
                       ids := TwoDone().ids + {"3"}) == ThreeLive()
  {
    hide TwoWindows;
  }

  lemma FourFits()
    ensures MayAdmit(ThreeLive(), 1_330_000, "b")
  {
    var l, candidate := Light(740_000, "a"), Provisional(Light(1_330_000, "b"));
    OneCovered("3", l, NetworkB());
    OneCovered("3", l, OnDay(0));
    hide Cover, TwoWindows, Span;
    assert Member(l, OnDay(0)) && !Member(l, NetworkB());
    FourUse(Provisional(l), candidate);
  }

  lemma FourUse(three: set<int>, four: set<int>)
    requires three == Span(740_000, 1_130_000) && four == Span(1_330_000, 1_720_000)
    ensures |{} + four - TwoWindows()| <= 390_000 && |three + four - TwoWindows()| <= 730_000
  {
    hide Span;
    AtMostSpan(three - TwoWindows(), 790_000, 1_130_000);
    AtMostSpan(four - TwoWindows(), 1_330_000, 1_720_000);
    OutsideOf(three, four, TwoWindows());
  }

  lemma OutsideOf(three: set<int>, four: set<int>, known: set<int>)
    ensures {} + four - known == four - known && |three + four - known| <= |three - known| + |four - known|
  {
    assert three + four - known == (three - known) + (four - known);
    UnionSize(three - known, four - known);
  }

  lemma FourSketch()
    ensures ThreeLive().(now := 1_330_000, leases := ThreeLive().leases["4" := Light(1_330_000, "b")],
                         ids := ThreeLive().ids + {"4"}) == FourLive()
  {
    hide TwoWindows;
  }

  /** The window of the second lease is forgotten while the third still covers a part of it. */
  lemma FourReported()
    ensures var s := Reported(FourLive(), 1_395_000, "4");
            s.a == 700_000 && |Cover(s.leases, NetworkA()) - s.known| == 390_000
  {
    hide Cover, Reported, Remembered, Span, TwoWindows;
    FourLeaves();
    ThirdReserves(Reported(FourLive(), 1_395_000, "4").known);
  }

  lemma ThirdReserves(known: set<int>)
    requires known == Remembered(TwoWindows(), Instants(Window(1_330_000, 1_395_000)), 795_000)
    ensures |Cover(map["3" := Light(740_000, "a")], NetworkA()) - known| == 390_000
  {
    hide Cover, Remembered, Span, TwoWindows, Provisional;
    OneCovered("3", Light(740_000, "a"), NetworkA());
    assert Member(Light(740_000, "a"), NetworkA());
    ForgottenWindow(known);
    ThirdUncovered(known);
  }

  lemma ThirdUncovered(known: set<int>)
    requires forall t :: 740_000 <= t < 1_130_000 ==> t !in known
    ensures |Provisional(Light(740_000, "a")) - known| == 390_000
  {
    hide Span;
    ExactlySpan(Provisional(Light(740_000, "a")) - known, 740_000, 1_130_000);
  }

  lemma FourLeaves()
    ensures var s := Reported(FourLive(), 1_395_000, "4");
            && s.leases == map["3" := Light(740_000, "a")] && s.a == 700_000
            && s.known == Remembered(TwoWindows(), Instants(Window(1_330_000, 1_395_000)), 795_000)
  {
    hide Remembered, Span, TwoWindows;
    FourWithout();
    assert !Member(Light(1_330_000, "b"), NetworkA());
  }

  lemma FourWithout()
    ensures FourLive().leases - {"4"} == map["3" := Light(740_000, "a")]
            && FourLive().leases["4"] == Light(1_330_000, "b")
  {
    hide TwoWindows;
  }

  lemma ForgottenWindow(known: set<int>)
    requires known == Remembered(TwoWindows(), Instants(Window(1_330_000, 1_395_000)), 795_000)
    ensures forall t :: 740_000 <= t < 1_130_000 ==> t !in known
  {
    hide Span;
    var all := TwoWindows() + Instants(Window(1_330_000, 1_395_000));
    assert 790_000 !in all;
    forall t | 740_000 <= t < 790_000 ensures !ReachesPast(all, t, 795_000) {
      assert t <= 790_000 <= 795_000;
    }
  }

  lemma ThreeOfAReached()
    ensures Reaches(ThreeOfA(), ThreeLive()) && AlwaysInTime(false, ThreeOfA())
  {
    hide NeverOverdue, AlwaysInTime, Reported, Remembered, MayAdmit, Reaches, Span, TwoWindows, NoneStale;
    FirstAdmission();
    ReportStep(FirstRun(), First(), 10_000, "1");
    OneReported();
    var run := FirstRun() + [Report(10_000, "1")];
    TwoFits();
    AdmitStep(run, OneDone(), 400_000, "2", "a");
    TwoSketch();
    run := run + [Request(400_000, "2", Light(400_000, "a"), [])];
    ReportStep(run, TwoLive(), 490_000, "2");
    TwoReported();
    run := run + [Report(490_000, "2")];
    ThreeFits();
    AdmitStep(run, TwoDone(), 740_000, "3", "a");
    ThreeSketch();
  }

  lemma TwoFits()
    ensures MayAdmit(OneDone(), 400_000, "a")
  {
    AloneFits(OneDone(), 400_000, "a", 400_000);
  }

  /** Every settlement is in time, and yet a network is billed and reserves more than its fifth of a day. */
  lemma OverdueAlonePassesTheShare()
    ensures IsRun(false, OverdueRun()) && AlwaysInTime(false, OverdueRun())
            && !Within(After(false, OverdueRun()), NetworkA())
  {
    hide IsRun, After, NeverOverdue, AlwaysInTime, Reported, Remembered, Good, Within, MayAdmit, Shows, Span,
         TwoWindows, NoneStale;
    ThreeOfAReached();
    FourFits();
    AdmitStep(ThreeOfA(), ThreeLive(), 1_330_000, "4", "b");
    FourSketch();
    var run := ThreeOfA() + [Request(1_330_000, "4", Light(1_330_000, "b"), [])];
    ReportStep(run, FourLive(), 1_395_000, "4");
    FourReported();
    ShownUse(After(false, OverdueRun()), Reported(FourLive(), 1_395_000, "4"));
    PassesLimit(After(false, OverdueRun()), NetworkA(), 1_090_000);
  }
}
