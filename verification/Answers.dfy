/** What a request is answered, read off the history and the figures alone (edge/src/governor.ts:409-518, 731-796):
    admitted when no budget is spent, and otherwise denied in the name of the first that is.
 */
module Answers {
  import opened Budget
  import opened Pacing
  import opened GovernorModel
  import opened Ledger
  import opened Accounts
  import opened Sanitizer
  import opened Invariant
  import opened Events
  import opened Punctual
  import opened Overruns
  import opened Outcomes
  import opened StateTheorems

  // ----- counts -----

  /** The ending of an analysis that gave its counts back. */
  predicate WasGivenBack(h: History, id: LeaseId)
    requires id in h.issued
  {
    id in h.ended && h.ended[id].Settled? && GivesBack(h.issued[id].lookup, h.ended[id].kind, h.ended[id].dbMs)
  }

  predicate ShareWasGivenBack(h: History, id: LeaseId)
    requires id in h.issued
  {
    id in h.ended && h.ended[id].Settled? && GivesShareBack(h.issued[id].lookup, h.ended[id].kind)
  }

  ghost function AnalysesOf(h: History, who: Group): set<LeaseId> {
    set id | id in h.issued && Member(h.issued[id], who) && h.issued[id].lookup != 1
  }

  ghost function LookupsOf(h: History, who: Group): set<LeaseId> {
    set id | id in h.issued && Member(h.issued[id], who) && h.issued[id].lookup == 1
  }

  /** The analyses of a group that still count, and the heavy ones. */
  ghost function Counting(h: History, who: Group): set<LeaseId> {
    set id | id in AnalysesOf(h, who) && !WasGivenBack(h, id)
  }

  ghost function HeavyCounting(h: History, who: Group): set<LeaseId> {
    set id | id in AnalysesOf(h, who) && h.issued[id].heavy == 1 && !WasGivenBack(h, id)
  }

  ghost function CountingForShare(h: History, who: Group): set<LeaseId> {
    set id | id in AnalysesOf(h, who) && !ShareWasGivenBack(h, id)
  }

  // ----- figures -----

  /** Neon's figures, while their period lasts and a key is configured. */
  ghost function Figures(w: Live, now: int): Option<NeonUsage> {
    if w.g.neonKey && w.st.neon.Some? && now < w.st.neon.value.periodEnd then w.st.neon else None
  }

  /** 10 CU-h with figures at most a day old, and 90/31 CU-h without, in CU-seconds. */
  ghost function CeilingCuS(w: Live, now: int): real {
    if Figures(w, now).Some? && now - Figures(w, now).value.polledAt <= 86_400_000 then 36_000.0
    else 90.0 / 31.0 * 3600.0
  }

  /** Milliseconds that the live leases of a group and one admitted now would add to those charged. */
  ghost function WouldReserve(w: Live, who: Group, now: int): nat {
    |Cover(w.g.leases, who) + Span(now, now + 390_000) - Points(w.st.charged)|
  }

  /** CU-seconds that a group would have been billed and have reserved. */
  ghost function WouldCost(w: Live, who: Group, now: int): real {
    AtTwoCu(BilledMs(w.g.hist.ledger, who) + WouldReserve(w, who, now))
  }

  ghost function DaysEgress(w: Live, l: Lease): int {
    BilledEgress(w.g.hist.ledger, OnDay(l.day)) + EgressHeld(w.g.leases, OnDay(l.day)) + l.egress
  }

  /** Bytes of the month: Neon's figure, what was billed since its base, the live leases and this one. */
  ghost function MonthsEgress(w: Live, neon: NeonUsage, l: Lease): real {
    neon.dataTransferBytes
    + (BilledEgress(w.g.hist.ledger, Everyone) - neon.egressBase + EgressHeld(w.g.leases, Everyone) + l.egress) as real
  }

  /** CU-hours of the month, likewise. */
  ghost function MonthsCuHours(w: Live, neon: NeonUsage, now: int): real {
    (neon.computeTimeS + (AtTwoCu(BilledMs(w.g.hist.ledger, Everyone)) - neon.cuBaseS)
     + AtTwoCu(WouldReserve(w, Everyone, now))) / 3600.0
  }

  // ----- budgets, in the order they are checked -----

  datatype Spent =
    | NetworkAnalyses | DayAnalyses | DayHeavies
    | NetworkLookups | DayLookups
    | NetworkCompute | DayCompute
    | DayEgress
    | MonthEgress | MonthCompute

  ghost function CountSpent(h: History, l: Lease): Option<Spent> {
    var network, day := OnNetwork(Network(l.day, l.prefix)), OnDay(l.day);
    if l.lookup == 1 then
      if |LookupsOf(h, network)| >= 200 then Some(NetworkLookups)
      else if |LookupsOf(h, day)| >= 2000 then Some(DayLookups)
      else None
    else
      if |CountingForShare(h, network)| >= 60 || |AnalysesOf(h, network)| >= 300 then Some(NetworkAnalyses)
      else if |Counting(h, day)| >= 600 then Some(DayAnalyses)
      else if l.heavy == 1 && |HeavyCounting(h, day)| >= 300 then Some(DayHeavies)
      else None
  }

  ghost function FigureSpent(w: Live, now: int, l: Lease): Option<Spent> {
    if WouldCost(w, OnNetwork(Network(l.day, l.prefix)), now) > 0.2 * CeilingCuS(w, now) then Some(NetworkCompute)
    else if WouldCost(w, OnDay(l.day), now) > CeilingCuS(w, now) then Some(DayCompute)
    else MonthSpent(w, now, l)
  }

  ghost function MonthSpent(w: Live, now: int, l: Lease): Option<Spent> {
    match Figures(w, now)
    case None =>
      if DaysEgress(w, l) as real > 4_500_000_000.0 / 31.0 then Some(DayEgress) else None
    case Some(neon) =>
      if MonthsEgress(w, neon, l) >= 4_500_000_000.0 then Some(MonthEgress)
      else if MonthsCuHours(w, neon, now) > AllowedAt(now, neon.periodStart, neon.periodEnd) then Some(MonthCompute)
      else None
  }

  /** The denial in a budget's name: its code, scope and name. */
  predicate NamesBudget(r: Result, s: Spent) {
    && r.Denied?
    && match s
       case NetworkAnalyses => r.code == RateLimited && r.scope == ClientScope && r.budget == PrefixBudget
       case NetworkCompute => r.code == RateLimited && r.scope == ClientScope && r.budget == PrefixBudget
       case NetworkLookups => r.code == RateLimited && r.scope == ClientScope && r.budget == Metadata
       case DayAnalyses => r.code == DailyCapacityReached && r.scope == GlobalScope && r.budget == GlobalBudget
       case DayLookups => r.code == DailyCapacityReached && r.scope == GlobalScope && r.budget == Metadata
       case DayHeavies => r.code == DailyCapacityReached && r.scope == DailyScope && r.budget == HeavyBudget
       case DayCompute => r.code == DailyCapacityReached && r.scope == DailyScope && r.budget == CuDay
       case DayEgress => r.code == DailyCapacityReached && r.scope == DailyScope && r.budget == EgressDay
       case MonthEgress => r.code == CapacityPaused && r.scope == MonthlyScope && r.budget == Egress
       case MonthCompute => r.code == CapacityPaused && r.scope == MonthlyScope && r.budget == CuMonth
  }

  /** When the budget may have room again: at midnight, at the period's end, or from when the line allows the month's
      compute. */
  ghost predicate ResumesWhen(r: Result, s: Spent, w: Live, now: int) {
    && r.Denied?
    && match s
       case MonthEgress => Figures(w, now).Some? && r.resumesAt == Figures(w, now).value.periodEnd
       case MonthCompute =>
         && Figures(w, now).Some?
         && var neon := Figures(w, now).value;
            var needed := MonthsCuHours(w, neon, now);
            && now < r.resumesAt <= neon.periodEnd
            && (needed > 85.0 ==> r.resumesAt == neon.periodEnd)
            && (needed <= 85.0 ==>
                  forall t: int :: AllowedAt(t, neon.periodStart, neon.periodEnd) >= needed <==> r.resumesAt <= t)
       case _ => now < r.resumesAt <= now + 86_400_000 && r.resumesAt % 86_400_000 == 0
  }

  // ----- the rows are these counts -----

  lemma RefundsAreGivenBack(h: History, who: Group)
    ensures TallySet(h, Analyses, who) == AnalysesOf(h, who)
    ensures TallySet(h, Lookups, who) == LookupsOf(h, who)
    ensures TallySet(h, Analyses, who) - TallySet(h, Refunds, who) == Counting(h, who)
    ensures TallySet(h, Heavies, who) - TallySet(h, HeavyRefunds, who) == HeavyCounting(h, who)
    ensures TallySet(h, Analyses, who) - TallySet(h, PrefixRefunds, who) == CountingForShare(h, who)
    ensures TallySet(h, Refunds, who) <= TallySet(h, Analyses, who)
    ensures TallySet(h, PrefixRefunds, who) <= TallySet(h, Analyses, who)
    ensures TallySet(h, HeavyRefunds, who) <= TallySet(h, Heavies, who)
  {
    hide Member;
  }

  lemma Difference<T>(a: set<T>, b: set<T>)
    requires b <= a
    ensures |a - b| == |a| - |b|
  {
    assert a == (a - b) + b;
    assert |(a - b) + b| == |a - b| + |b|;
  }

  lemma CountsAre(h: History, who: Group)
    ensures |AnalysesOf(h, who)| == Tallied(h, Analyses, who) && |LookupsOf(h, who)| == Tallied(h, Lookups, who)
    ensures |Counting(h, who)| == Tallied(h, Analyses, who) - Tallied(h, Refunds, who)
    ensures |HeavyCounting(h, who)| == Tallied(h, Heavies, who) - Tallied(h, HeavyRefunds, who)
    ensures |CountingForShare(h, who)| == Tallied(h, Analyses, who) - Tallied(h, PrefixRefunds, who)
  {
    RefundsAreGivenBack(h, who);
    hide TallySet, AnalysesOf, LookupsOf, Counting, HeavyCounting, CountingForShare;
    Difference(TallySet(h, Analyses, who), TallySet(h, Refunds, who));
    Difference(TallySet(h, Heavies, who), TallySet(h, HeavyRefunds, who));
    Difference(TallySet(h, Analyses, who), TallySet(h, PrefixRefunds, who));
  }

  /** Today's row of a network, or its absence, is what the history says. */
  lemma TodaysUse(w: Live, n: Network)
    requires Tables(w) && Row(w) && n.day == DayOf(w.g.hist.clock)
    ensures NetworkRowIs(UseOf(w.g.prefixes, n), w.g.hist, n)
  {
    hide DaysAccounted, LiveDaysKept;
    if w.st.purgedDay != Some(n.day) {
      var h := w.g.hist;
      assert forall id :: id in h.issued ==> h.issued[id].day < n.day;
      NobodyYet(h, n);
      assert n !in w.g.prefixes;
      LedgerOfIssued(w, n);
      assert CuSeconds(0) == 0.0;
    }
  }

  lemma NobodyYet(h: History, n: Network)
    requires forall id :: id in h.issued ==> h.issued[id].day < n.day
    ensures forall t :: Tallied(h, t, OnNetwork(n)) == 0
  {
    forall t ensures Tallied(h, t, OnNetwork(n)) == 0 {
      assert TallySet(h, t, OnNetwork(n)) == {};
    }
  }

  lemma LedgerOfIssued(w: Live, n: Network)
    requires Tables(w) && forall id :: id in w.g.hist.issued ==> w.g.hist.issued[id].day < n.day
    ensures BilledMs(w.g.hist.ledger, OnNetwork(n)) == 0
  {
    hide DaysAccounted, LiveDaysKept, NetworksAccounted;
    forall i | 0 <= i < |w.g.hist.ledger| ensures !Member(w.g.hist.ledger[i].lease, OnNetwork(n)) {
      assert w.g.hist.ledger[i].id in w.g.hist.ended;
    }
    NothingBilled(w.g.hist.ledger, OnNetwork(n));
  }

  lemma TodaysDay(w: Live, day: Day)
    requires Tables(w) && day == DayOf(w.g.hist.clock)
    ensures DayRowIs(DayRowOf(w.g.days, day), w.g.hist, day)
  {
  }

  // ----- the answers -----

  lemma CountAnswer(w: Live, now: int, l: Lease)
    requires Tables(w) && Row(w) && w.g.hist.clock == now && l.day == DayOf(now)
    ensures var d, s := CountDenial(w.g, now, l), CountSpent(w.g.hist, l);
            Tells(d, s, w, now)
  {
    hide Tables, Row, Tallied, BilledMs, BilledEgress, AnalysesOf, LookupsOf, Counting, HeavyCounting, CountingForShare,
         SecondsUntil;
    var n := NetworkOf(l);
    TodaysUse(w, n);
    TodaysDay(w, l.day);
    CountsAre(w.g.hist, OnNetwork(n));
    CountsAre(w.g.hist, OnDay(l.day));
    MidnightIsNext(now);
  }

  /** The figures the checks compute are these. */
  lemma FiguresAre(w: Live, now: int, l: Lease)
    requires TotalsAccounted(w.st, w.g.hist)
    ensures CurrentNeon(w.st, now, w.g.neonKey) == Figures(w, now)
            && DailyCeilingS(w.st, now, w.g.neonKey) == CeilingCuS(w, now)
    ensures forall who ::
              CuSeconds(BilledMs(w.g.hist.ledger, who))
                  + CuSeconds(UncoveredMs(w.g, w.st, who, ProvisionalInterval(now)))
              == WouldCost(w, who, now)
    ensures var neon := Figures(w, now);
            neon.Some? ==>
              MonthCuS(w.st, neon.value, UncoveredMs(w.g, w.st, Everyone, ProvisionalInterval(now))) / 3600.0
              == MonthsCuHours(w, neon.value, now)
  {
    hide Cover, Points, BilledMs, BilledEgress, Span;
  }

  lemma TotalsAre(w: Live)
    requires TotalsAccounted(w.st, w.g.hist)
    ensures w.st.egressTotal == BilledEgress(w.g.hist.ledger, Everyone)
  {
  }

  lemma EgressNotNegative(w: Live, who: Group)
    requires Tables(w)
    ensures BilledEgress(w.g.hist.ledger, who) >= 0
  {
    hide DaysAccounted, LiveDaysKept, NetworksAccounted;
    forall i | 0 <= i < |w.g.hist.ledger| ensures w.g.hist.ledger[i].lease.egress >= 0 {
      assert LeaseSound(w.g.hist.issued[w.g.hist.ledger[i].id], w.g.hist.clock);
    }
    EgressIsNonnegative(w.g.hist.ledger, who);
  }

  /** Today's rows hold what was billed, and nothing negative. */
  lemma RowsHoldTheBilled(w: Live, l: Lease)
    requires Tables(w) && Row(w) && l.day == DayOf(w.g.hist.clock)
    ensures var use, day, ledger := UseOf(w.g.prefixes, NetworkOf(l)), DayRowOf(w.g.days, l.day), w.g.hist.ledger;
            && use.cuS == CuSeconds(BilledMs(ledger, OnNetwork(NetworkOf(l)))) && use.cuS >= 0.0
            && day.cuS == CuSeconds(BilledMs(ledger, OnDay(l.day))) && day.cuS >= 0.0
            && day.egress == BilledEgress(ledger, OnDay(l.day)) && day.egress >= 0
  {
    hide Tallied, Tables, Row;
    TodaysUse(w, NetworkOf(l));
    TodaysDay(w, l.day);
    CuSecondsMonotone(0, BilledMs(w.g.hist.ledger, OnDay(l.day)));
    CuSecondsMonotone(0, BilledMs(w.g.hist.ledger, OnNetwork(NetworkOf(l))));
    EgressNotNegative(w, OnDay(l.day));
  }

  /** A denial for the month's compute resumes when the line first allows it. */
  lemma LineResumes(needed: real, now: int, neon: NeonUsage)
    requires neon.periodStart < neon.periodEnd && now < neon.periodEnd
    requires needed > AllowedAt(now, neon.periodStart, neon.periodEnd)
    ensures var at := PacingResumesAt(needed, neon.periodStart, neon.periodEnd);
            && now < at <= neon.periodEnd && (needed > 85.0 ==> at == neon.periodEnd)
            && (needed <= 85.0 ==>
                  forall t: int :: AllowedAt(t, neon.periodStart, neon.periodEnd) >= needed <==> at <= t)
  {
    ResumesLater(needed, now, neon.periodStart, neon.periodEnd);
    ResumesAtOutsideTheLine(needed, now, neon.periodStart, neon.periodEnd);
    hide AllowedAt, PacingResumesAt;
    if needed <= 85.0 {
      forall t: int ensures AllowedAt(t, neon.periodStart, neon.periodEnd) >= needed
                            <==> PacingResumesAt(needed, neon.periodStart, neon.periodEnd) <= t {
        ResumesAtIsTheInverse(needed, t, neon.periodStart, neon.periodEnd);
      }
    }
  }

  lemma FiguresHaveAPeriod(w: Live, now: int)
    requires Row(w)
    ensures var neon := Figures(w, now); neon.Some? ==>
            neon.value.periodStart < neon.value.periodEnd && now < neon.value.periodEnd
  {
    hide Bridged, PollsSound, WindowsClean;
  }

  /** A denial, or none, says which budget is spent, or none. */
  ghost predicate Tells(d: Option<Result>, s: Option<Spent>, w: Live, now: int) {
    && (d.None? <==> s.None?)
    && (d.Some? ==> d.value.Denied? && NamesBudget(d.value, s.value) && ResumesWhen(d.value, s.value, w, now))
  }

  lemma MidnightTells(w: Live, now: int)
    ensures Tells(Some(Deny(RateLimited, ClientScope, PrefixBudget, NextUtcMidnight(now), now)), Some(NetworkCompute),
                  w, now)
    ensures Tells(Some(Deny(DailyCapacityReached, DailyScope, CuDay, NextUtcMidnight(now), now)), Some(DayCompute), w,
                  now)
    ensures Tells(Some(Deny(DailyCapacityReached, DailyScope, EgressDay, NextUtcMidnight(now), now)), Some(DayEgress),
                  w, now)
  {
    hide SecondsUntil;
    MidnightIsNext(now);
  }

  lemma PeriodTells(w: Live, now: int)
    ensures var neon := Figures(w, now);
            neon.Some? ==>
              Tells(Some(Deny(CapacityPaused, MonthlyScope, Egress, neon.value.periodEnd, now)), Some(MonthEgress), w,
                    now)
  {
    hide SecondsUntil, Figures;
  }

  lemma LineTells(w: Live, now: int)
    requires Row(w)
    ensures var neon := Figures(w, now);
            neon.Some? ==>
              var n, needed := neon.value, MonthsCuHours(w, neon.value, now);
              needed > AllowedAt(now, n.periodStart, n.periodEnd) ==>
                Tells(Some(Deny(CapacityPaused, MonthlyScope, CuMonth,
                                PacingResumesAt(needed, n.periodStart, n.periodEnd), now)),
                      Some(MonthCompute), w, now)
  {
    hide SecondsUntil, Figures, AllowedAt, PacingResumesAt, MonthsCuHours, Row;
    FiguresHaveAPeriod(w, now);
    var neon := Figures(w, now);
    if neon.Some? && MonthsCuHours(w, neon.value, now) > AllowedAt(now, neon.value.periodStart, neon.value.periodEnd) {
      LineResumes(MonthsCuHours(w, neon.value, now), now, neon.value);
    }
  }

  lemma NothingTells(w: Live, now: int)
    ensures Tells(None, None, w, now)
  {
  }

  lemma MonthAnswer(w: Live, now: int, l: Lease)
    requires Tables(w) && Row(w) && TotalsAccounted(w.st, w.g.hist) && w.g.hist.clock == now && l.day == DayOf(now)
    ensures Tells(MonthlyDenial(w.g, w.st, now, l.egress, DayRowOf(w.g.days, l.day)), MonthSpent(w, now, l), w, now)
  {
    hide Tables, Row, TotalsAccounted, BilledMs, BilledEgress, EgressHeld, SecondsUntil, AllowedAt, PacingResumesAt,
         Deny, Tells,
         UncoveredMs, MonthCuS, MonthsCuHours, Figures, CurrentNeon, CuSeconds, NextUtcMidnight, DayRowOf,
             DailyCeilingS,
         WouldCost, UseOf;
    RowsHoldTheBilled(w, l);
    FiguresAre(w, now, l);
    TotalsAre(w);
    MidnightTells(w, now);
    PeriodTells(w, now);
    LineTells(w, now);
    NothingTells(w, now);
  }

  lemma FigureAnswer(w: Live, now: int, l: Lease)
    requires Tables(w) && Row(w) && TotalsAccounted(w.st, w.g.hist) && w.g.hist.clock == now && l.day == DayOf(now)
    ensures Tells(ComputeDenial(w.g, w.st, now, l.prefix, l.egress), FigureSpent(w, now, l), w, now)
  {
    hide Tables, Row, TotalsAccounted, BilledMs, BilledEgress, SecondsUntil, CeilingCuS, WouldCost, UncoveredMs,
         CuSeconds, Deny,
         Tells, DailyCeilingS, MonthlyDenial, MonthSpent, NextUtcMidnight, DayRowOf, UseOf, Figures, CurrentNeon,
             MonthCuS,
         MonthsCuHours, DayOf;
    MonthAnswer(w, now, l);
    RowsHoldTheBilled(w, l);
    FiguresAre(w, now, l);
    MidnightTells(w, now);
  }

  // ----- requests -----

  /** The lease a request asks for: an analysis, light or heavy, or a lookup. */
  predicate IsLeaseOf(l: Lease, now: int) {
    && l.admittedAt == now && l.day * 86_400_000 <= now < (l.day + 1) * 86_400_000
    && match l.lookup
       case 0 => (l.heavy == 0 && l.egress == 65_536) || (l.heavy == 1 && l.egress == 524_288)
       case 1 => l.heavy == 0 && l.egress == 131_072
       case _ => false
  }

  /** The first budget that is spent: a count before anything else, and a figure once overdue leases have expired. */
  ghost function FirstSpent(t: Gov, e: Event): Option<Spent>
    requires e.Request?
  {
    var count := CountSpent(t.hist, e.lease);
    if count.Some? then count else FigureSpent(Checked(t, e.now, e.order), e.now, e.lease)
  }

  ghost function AnswerTo(g: Gov, e: Event): Result
    requires e.Request?
  {
    Admission(Tick(g, e.now), e.now, e.id, e.lease, e.order).result
  }

  lemma LeaseOf(now: int, l: Lease)
    requires LeaseSound(l, now) && l.admittedAt == now
    ensures IsLeaseOf(l, now)
  {
  }

  lemma Parts(w: Live)
    requires Holds(w)
    ensures Tables(w) && Row(w) && TotalsAccounted(w.st, w.g.hist)
  {
    hide Tables, Row;
  }

  /** A spent count has room again at midnight, whatever the figures. */
  lemma CountsResumeAtMidnight(h: History, l: Lease, d: Option<Result>, w: Live, w': Live, now: int)
    requires CountSpent(h, l).Some? && Tells(d, CountSpent(h, l), w, now)
    ensures Tells(d, CountSpent(h, l), w', now)
  {
    hide AnalysesOf, LookupsOf, Counting, HeavyCounting, CountingForShare, NamesBudget;
  }

  /** A request is admitted if and only if no budget is spent, and is otherwise denied in the name of the first that
      is, until it may have room. */
  lemma RequestAnswer(g: Gov, e: Event)
    requires Good(g) && Possible(g, e) && e.Request?
    ensures var s, r, w := FirstSpent(Tick(g, e.now), e), AnswerTo(g, e), Checked(Tick(g, e.now), e.now, e.order);
            && IsLeaseOf(e.lease, e.now)
            && (r.Admitted? <==> s.None?)
            && (r.Admitted? ==> r.id == e.id)
            && (r.Denied? ==> NamesBudget(r, s.value) && ResumesWhen(r, s.value, w, e.now))
  {
    hide Good, Holds, Tables, Row, TotalsAccounted, StaleOrder, CountDenial, ComputeDenial, CountSpent, FigureSpent,
         Admit,
         NoneStale, NamesBudget, ResumesWhen, IsLeaseOf, LeaseSound, Checked, Possible;
    var t, l := Tick(g, e.now), e.lease;
    NonNegativeClock(g);
    RequestIs(g, e);
    TickIsGood(g, e.now);
    LeaseOf(e.now, l);
    RequestUse(t, e.now, e.id, l, e.order, Everyone);
    var w := Checked(t, e.now, e.order);
    StoredParts(t);
    Parts(w);
    CountAnswer(Live(t, Stored(t)), e.now, l);
    FigureAnswer(w, e.now, l);
    if CountSpent(t.hist, l).Some? {
      CountsResumeAtMidnight(t.hist, l, CountDenial(t, e.now, l), Live(t, Stored(t)), w, e.now);
    }
    AnswerIs(t, e);
  }

  lemma RequestIs(g: Gov, e: Event)
    requires Possible(g, e) && e.Request? && g.hist.clock >= 0
    ensures e.now >= 0 && LeaseSound(e.lease, e.now) && e.lease.admittedAt == e.now && e.lease.day == DayOf(e.now)
    ensures StaleOrder(g.leases, e.now, e.order) && e.id !in g.hist.issued && g.hist.clock <= e.now
  {
    FreshLeaseSound(e.now, e.lease);
  }

  lemma StoredParts(t: Gov)
    requires Good(t)
    ensures var w := Live(t, Stored(t)); Tables(w) && Row(w)
  {
    hide Tables, Charges, Row;
  }

  /** An answer is the first denial there is. */
  lemma AnswerIs(t: Gov, e: Event)
    requires e.Request?
    ensures var w, r := Checked(t, e.now, e.order), Admission(t, e.now, e.id, e.lease, e.order).result;
            var count := CountDenial(t, e.now, e.lease);
            var figure := ComputeDenial(w.g, w.st, e.now, e.lease.prefix, e.lease.egress);
            r == if count.Some? then count.value else if figure.Some? then figure.value else Admitted(e.id)
  {
    hide CountDenial, ComputeDenial, Expire, Admit;
  }

  /** What a request leaves behind: nothing new when a count is spent; otherwise overdue leases are charged in full and
      gone, and an admitted lease, and no other, is live and issued. */
  lemma RequestEffect(g: Gov, e: Event)
    requires Good(g) && Possible(g, e) && e.Request?
    ensures var t, g' := Tick(g, e.now), Next(g, e);
            if CountSpent(t.hist, e.lease).Some? then g' == t
            else
              && ListsOverdue(g.leases, e.now, e.order)
              && ChargedInFull(g.hist.ledger, g'.hist.ledger, g.leases, e.order)
              && (forall id :: id in g'.leases <==>
                    (id in g.leases && g.leases[id].admittedAt >= e.now - 600_000)
                        || (id == e.id && FirstSpent(t, e).None?))
              && (forall id :: id in g'.leases && id in g.leases ==> g'.leases[id] == g.leases[id])
              && (if FirstSpent(t, e).None? then g'.leases[e.id] == e.lease
                  && g'.hist.issued == g.hist.issued[e.id := e.lease]
                  else g'.hist.issued == g.hist.issued)
  {
    hide Good, Holds, Tables, Row, TotalsAccounted, StaleOrder, CountDenial, ComputeDenial, CountSpent, FigureSpent,
         Admit,
         NoneStale, LeaseSound, Checked, Possible, ListsOverdue, ChargedInFull, Admission, Load, Tells;
    var t, l := Tick(g, e.now), e.lease;
    NonNegativeClock(g);
    RequestIs(g, e);
    TickIsGood(g, e.now);
    StoredParts(t);
    CountAnswer(Live(t, Stored(t)), e.now, l);
    Tell(CountDenial(t, e.now, l), CountSpent(t.hist, l), Live(t, Stored(t)), e.now);
    EffectIs(t, e);
    FreshIsNotLive(g, e.id);
    if CountSpent(t.hist, l).None? {
      RequestUse(t, e.now, e.id, l, e.order, Everyone);
      var w := Checked(t, e.now, e.order);
      Parts(w);
      FigureAnswer(w, e.now, l);
      Tell(ComputeDenial(w.g, w.st, e.now, l.prefix, l.egress), FigureSpent(w, e.now, l), w, e.now);
      CheckedIsInFull(t, e.now, e.order);
      if FirstSpent(t, e).None? {
        AdmitFigures(w, e.now, e.id, l);
      }
    }
  }

  lemma Tell(d: Option<Result>, s: Option<Spent>, w: Live, now: int)
    requires Tells(d, s, w, now)
    ensures d.None? <==> s.None?
  {
    hide NamesBudget, ResumesWhen;
  }

  lemma EffectIs(t: Gov, e: Event)
    requires e.Request?
    ensures var w, g' := Checked(t, e.now, e.order), Admission(t, e.now, e.id, e.lease, e.order).g;
            g' == if CountDenial(t, e.now, e.lease).Some? then t
                  else if ComputeDenial(w.g, w.st, e.now, e.lease.prefix, e.lease.egress).Some? then w.g
                  else Admit(w, e.now, e.id, e.lease)
  {
    hide CountDenial, ComputeDenial, Expire, Admit;
  }

  lemma CheckedIsInFull(t: Gov, now: int, order: seq<LeaseId>)
    requires Good(t) && t.hist.clock == now && StaleOrder(t.leases, now, order)
    ensures var w := Checked(t, now, order);
            && ListsOverdue(t.leases, now, order)
            && ChargedInFull(t.hist.ledger, w.g.hist.ledger, t.leases, order)
            && (forall id :: id in w.g.leases <==> id in t.leases && t.leases[id].admittedAt >= now - 600_000)
            && (forall id :: id in w.g.leases ==> w.g.leases[id] == t.leases[id])
            && w.g.hist.issued == t.hist.issued
  {
    hide Good, Holds, StaleOrder, Expire, ListsOverdue, ChargedInFull, Load, OnlyExpired, NoneStale;
    LoadHolds(t);
    var w := Live(t, Load(t.row, now));
    ExpireIsInFull(w, now, order);
    ExpireHolds(w, now, order);
    ExpiredHistory(w, Expire(w, now, order));
    if order == [] {
      assert t.leases - Ids(order) == t.leases;
      NothingExpired(w, now);
    }
  }

  lemma NothingExpired(w: Live, now: int)
    ensures Expire(w, now, []) == w
  {
  }
}
