/** What can be charged: per day, per network, over 31 days, on every run. */
module CeilingTheorems {
  import opened Budget
  import opened GovernorModel
  import opened Ledger
  import opened Accounts
  import opened Reserves
  import opened Invariant
  import opened Events
  import opened Punctual
  import opened Overruns
  import Sums

  /** On every run: settled compute plus what live leases would still add is within the ceiling of
      their day or network, but for what slipped. */
  lemma CeilingOnEveryRun(neonKey: bool, run: seq<Event>, who: Group)
    requires IsRun(neonKey, run) && !who.Everyone?
    ensures var g := After(neonKey, run);
            CuSeconds(BilledMs(g.hist.ledger, who) + ReservedMs(g.leases, who, Stored(g).charged))
            <= LimitS(Measured(g.hist), who) + CuSeconds(SlippedMs(g.hist.ledger, who))
  {
    hide Tables, Row, IsRun, After, CuSeconds, ReservedMs, BilledMs, SlippedMs, LimitS, Stored, EgressHolds,
         ChargesCover, TotalsAccounted;
    RunsAreGood(neonKey, run);
    var g := After(neonKey, run);
    assert WithinCeiling(Measured(g.hist), g.leases, g.hist.ledger, Stored(g).charged, who);
  }

  /** Runs whose settlements come within the deadline, none while an expiry is overdue. */
  ghost predicate Timely(neonKey: bool, run: seq<Event>) {
    IsRun(neonKey, run) && NeverOverdue(neonKey, run) && AlwaysInTime(neonKey, run)
  }

  lemma TimelyRunsFit(neonKey: bool, run: seq<Event>, who: Group)
    requires Timely(neonKey, run) && !who.Everyone?
    ensures IsRun(neonKey, run) && SettlementsFit(neonKey, run, who)
  {
    hide IsRun, NeverOverdue, AlwaysInTime, SettlementsFit;
    PunctualRunsFit(neonKey, run, who);
  }

  /** A run whose settlements fit ends with the group's ceiling kept. */
  lemma FittingCeiling(neonKey: bool, run: seq<Event>, who: Group)
    requires IsRun(neonKey, run) && SettlementsFit(neonKey, run, who) && !who.Everyone?
    ensures var g := After(neonKey, run);
            CuSeconds(BilledMs(g.hist.ledger, who)) + CuSeconds(ReservedMs(g.leases, who, Stored(g).charged))
            <= LimitS(Measured(g.hist), who)
  {
    hide After, IsRun, SettlementsFit, CuSeconds, ReservedMs, BilledMs, LimitS, Stored;
    CeilingIffSettlementsFit(neonKey, run, who);
    assert run[..|run|] == run;
    var g := After(neonKey, run);
    assert Within(After(neonKey, run[..|run|]), who);
    CuSecondsAdds(BilledMs(g.hist.ledger, who), ReservedMs(g.leases, who, Stored(g).charged));
  }

  /** When its settlements fit, a day's settled compute plus what its live leases would still add is at most
      10 CU-h, and 90/31 CU-h until a poll of Neon was applied. */
  lemma DailyCeiling(neonKey: bool, run: seq<Event>, day: Day)
    requires IsRun(neonKey, run) && SettlementsFit(neonKey, run, OnDay(day))
    ensures var g := After(neonKey, run);
            CuSeconds(BilledMs(g.hist.ledger, OnDay(day)))
                + CuSeconds(ReservedMs(g.leases, OnDay(day), Stored(g).charged))
            <= (if g.hist.applied == [] then 90.0 / 31.0 else 10.0) * 3600.0
  {
    hide IsRun, SettlementsFit, After, CuSeconds, ReservedMs, BilledMs, Stored;
    FittingCeiling(neonKey, run, OnDay(day));
  }

  /** Timely runs are such runs, and without a key no poll is ever applied. */
  lemma TimelyDailyCeiling(neonKey: bool, run: seq<Event>, day: Day)
    requires Timely(neonKey, run)
    ensures var g := After(neonKey, run);
            CuSeconds(BilledMs(g.hist.ledger, OnDay(day)))
                + CuSeconds(ReservedMs(g.leases, OnDay(day), Stored(g).charged))
            <= (if neonKey then 10.0 else 90.0 / 31.0) * 3600.0
  {
    hide Timely, IsRun, SettlementsFit, After, CuSeconds, ReservedMs, BilledMs, Stored;
    TimelyRunsFit(neonKey, run, OnDay(day));
    DailyCeiling(neonKey, run, day);
    if !neonKey { NoKeyNoPolls(run); }
  }

  lemma {:induction false} SameKey(neonKey: bool, run: seq<Event>)
    ensures After(neonKey, run).neonKey == neonKey
  {
    if run != [] {
      hide Next;
      SameKey(neonKey, run[..|run| - 1]);
      NextKeepsKey(After(neonKey, run[..|run| - 1]), run[|run| - 1]);
    }
  }

  lemma NoKeyNoPolls(run: seq<Event>)
    requires IsRun(false, run)
    ensures After(false, run).hist.applied == []
  {
    hide IsRun, After, Tables, Charges, PollsSound, Bridged;
    RunsAreGood(false, run);
    SameKey(false, run);
  }

  lemma NextKeepsKey(g: Gov, e: Event)
    ensures Next(g, e).neonKey == g.neonKey
  {
    hide Expire, Load, CountDenial, ComputeDenial, PollDue, Applies, ApplyPoll, Schedule, ChargeFor;
    match e
    case Request(now, id, l, order) => ExpireKeepsKey(Live(Tick(g, now), Load(g.row, now)), now, order);
    case Settlement(_, _, _, _) =>
    case Alarm(now, order) => ExpireKeepsKey(Live(Tick(g, now), Load(g.row, now).(alarmAt := None)), now, order);
    case PollEnds(_, _, _) =>
    case Starts(_) =>
  }

  lemma {:induction false} ExpireEachKeepsKey(w: Live, order: seq<LeaseId>, horizon: int)
    ensures ExpireEach(w, order, horizon).g.neonKey == w.g.neonKey
  {
    if order != [] {
      ExpireEachKeepsKey(w, order[..|order| - 1], horizon);
      hide ChargeFor;
    }
  }

  lemma ExpireKeepsKey(w: Live, now: int, order: seq<LeaseId>)
    ensures Expire(w, now, order).g.neonKey == w.g.neonKey
  {
    if order != [] && order[0] in w.g.leases {
      ExpireEachKeepsKey(w, order, w.g.leases[order[0]].admittedAt);
      hide ExpireEach;
    }
  }

  /** The stored rows are those figures: no day's row shows more than the ceiling. */
  lemma DayRowWithinCeiling(neonKey: bool, run: seq<Event>, day: Day)
    requires IsRun(neonKey, run) && SettlementsFit(neonKey, run, OnDay(day)) && day in After(neonKey, run).days
    ensures After(neonKey, run).days[day].cuS <= CapS(Measured(After(neonKey, run).hist))
  {
    hide IsRun, SettlementsFit, Charges, Row, Tallied, BilledMs, ReservedMs;
    var g := After(neonKey, run);
    RunsAreGood(neonKey, run);
    DailyCeiling(neonKey, run, day);
    CuSecondsMonotone(0, ReservedMs(g.leases, OnDay(day), Stored(g).charged));
    assert DayRowIs(DayRowOf(g.days, day), g.hist, day);
  }

  // ----- networks -----

  /** When its settlements fit, one network is charged at most a fifth of the day's ceiling. */
  lemma NetworkCeiling(neonKey: bool, run: seq<Event>, n: Network)
    requires IsRun(neonKey, run) && SettlementsFit(neonKey, run, OnNetwork(n))
    ensures var g := After(neonKey, run);
            CuSeconds(BilledMs(g.hist.ledger, OnNetwork(n)))
                + CuSeconds(ReservedMs(g.leases, OnNetwork(n), Stored(g).charged))
            <= PREFIX_DAILY_CU_SHARE * CapS(Measured(g.hist))
  {
    hide IsRun, SettlementsFit, After, CuSeconds, ReservedMs, BilledMs, CapS, Stored;
    FittingCeiling(neonKey, run, OnNetwork(n));
  }

  /** What each network was charged. */
  ghost function NetworkColumn(ledger: seq<Charge>, networks: set<Network>): map<Network, int> {
    map n | n in networks :: BilledMs(ledger, OnNetwork(n))
  }

  /** Every network of the day that was charged any compute is among these. */
  ghost predicate CoversCharged(ledger: seq<Charge>, day: Day, networks: set<Network>) {
    && (forall n :: n in networks ==> n.day == day)
    && (forall i :: 0 <= i < |ledger| && ledger[i].lease.day == day && ledger[i].addedMs > 0 ==>
        NetworkOf(ledger[i].lease) in networks)
  }

  /** A day's compute is the sum of its networks' compute. */
  lemma {:induction false} NetworksSumToDay(ledger: seq<Charge>, day: Day, networks: set<Network>)
    requires CoversCharged(ledger, day, networks)
    ensures Sums.Sum(NetworkColumn(ledger, networks)) == BilledMs(ledger, OnDay(day))
  {
    var column := NetworkColumn(ledger, networks);
    if ledger == [] {
      Sums.SumOfZeros(column);
    } else {
      var n := |ledger| - 1;
      var c, before := ledger[n], NetworkColumn(ledger[..n], networks);
      NetworksSumToDay(ledger[..n], day, networks);
      var own := NetworkOf(c.lease);
      if own in networks {
        assert column == before[own := before[own] + c.addedMs];
        Sums.SumUpdate(before, own, before[own] + c.addedMs);
      } else {
        assert column == before;
      }
    }
  }

  lemma FloorBound(x: int, limit: real)
    requires CuSeconds(x) <= limit
    ensures x <= (limit * 1000.0 / NEON_MAX_CU).Floor
  {
    assert x as real <= limit * 1000.0 / NEON_MAX_CU;
  }

  lemma RealProduct(n: nat, m: int, bound: real)
    requires m as real <= bound
    ensures (n * m) as real <= n as real * bound
  {
    assert (n * m) as real == n as real * m as real;
    assert n as real * (bound - m as real) >= 0.0;
  }

  lemma CuSecondsOfMany(x: int, n: nat, limit: real)
    requires x <= n * (limit * 1000.0 / NEON_MAX_CU).Floor
    ensures CuSeconds(x) <= n as real * limit
  {
    var most := (limit * 1000.0 / NEON_MAX_CU).Floor;
    RealProduct(n, most, limit * 500.0);
    assert x as real <= n as real * (limit * 500.0);
    assert n as real * (limit * 500.0) == (n as real * limit) * 500.0;
  }

  ghost predicate NetworksFit(neonKey: bool, run: seq<Event>, networks: set<Network>) {
    IsRun(neonKey, run) && forall n :: n in networks ==> SettlementsFit(neonKey, run, OnNetwork(n))
  }

  /** A day's compute is at most a fifth of the ceiling for each network that was charged any, when their
      settlements fit. */
  lemma NetworksNeeded(neonKey: bool, run: seq<Event>, day: Day, networks: set<Network>)
    requires NetworksFit(neonKey, run, networks)
    requires CoversCharged(After(neonKey, run).hist.ledger, day, networks)
    ensures CuSeconds(BilledMs(After(neonKey, run).hist.ledger, OnDay(day)))
         <= |networks| as real * (PREFIX_DAILY_CU_SHARE * CapS(Measured(After(neonKey, run).hist)))
  {
    hide NetworksFit, After, CuSeconds, CapS, BilledMs, ReservedMs, CoversCharged, Stored;
    var g := After(neonKey, run);
    var ledger, limit := g.hist.ledger, PREFIX_DAILY_CU_SHARE * CapS(Measured(g.hist));
    NetworksSumToDay(ledger, day, networks);
    NetworkColumnBound(neonKey, run, networks);
    ColumnAtMost(NetworkColumn(ledger, networks), networks, (limit * 1000.0 / NEON_MAX_CU).Floor);
    CuSecondsOfMany(Sums.Sum(NetworkColumn(ledger, networks)), |networks|, limit);
  }

  lemma ColumnAtMost(column: map<Network, int>, networks: set<Network>, most: int)
    requires column.Keys == networks
    requires forall n :: n in column ==> column[n] <= most
    ensures Sums.Sum(column) <= |networks| * most
  {
    Sums.SumAtMost(column, most);
    assert |column| == |column.Keys|;
  }

  lemma NetworkColumnBound(neonKey: bool, run: seq<Event>, networks: set<Network>)
    requires NetworksFit(neonKey, run, networks)
    ensures var g := After(neonKey, run);
            var column := NetworkColumn(g.hist.ledger, networks);
            forall n :: n in column ==>
              column[n] <= (PREFIX_DAILY_CU_SHARE * CapS(Measured(g.hist)) * 1000.0 / NEON_MAX_CU).Floor
  {
    hide IsRun, SettlementsFit, After, CuSeconds, CapS, BilledMs, ReservedMs, Stored;
    var g := After(neonKey, run);
    var limit := PREFIX_DAILY_CU_SHARE * CapS(Measured(g.hist));
    forall n | n in networks ensures BilledMs(g.hist.ledger, OnNetwork(n)) <= (limit * 1000.0 / NEON_MAX_CU).Floor {
      NetworkCeiling(neonKey, run, n);
      ReserveCosts(g, OnNetwork(n));
      FloorBound(BilledMs(g.hist.ledger, OnNetwork(n)), limit);
    }
  }

  lemma ReserveCosts(g: Gov, who: Group)
    ensures CuSeconds(ReservedMs(g.leases, who, Stored(g).charged)) >= 0.0
  {
    CuSecondsMonotone(0, ReservedMs(g.leases, who, Stored(g).charged));
  }

  /** Four networks cannot spend more than four fifths of a day's ceiling. */
  lemma FiveNetworksNeeded(neonKey: bool, run: seq<Event>, day: Day, networks: set<Network>)
    requires NetworksFit(neonKey, run, networks)
    requires CoversCharged(After(neonKey, run).hist.ledger, day, networks)
    requires var g := After(neonKey, run);
             CuSeconds(BilledMs(g.hist.ledger, OnDay(day))) > 0.8 * CapS(Measured(g.hist))
    ensures |networks| >= 5
  {
    hide NetworksFit, After, CuSeconds, CapS, BilledMs, CoversCharged;
    var measured := Measured(After(neonKey, run).hist);
    NetworksNeeded(neonKey, run, day, networks);
    CapIsPositive(measured);
    if |networks| <= 4 {
      FourFifths(|networks|, CapS(measured));
    }
  }

  lemma FourFifths(n: nat, cap: real)
    requires cap > 0.0 && n <= 4
    ensures n as real * (PREFIX_DAILY_CU_SHARE * cap) <= 0.8 * cap
  {
    var share := PREFIX_DAILY_CU_SHARE * cap;
    assert (4.0 - n as real) * share >= 0.0;
    assert (4.0 - n as real) * share == 4.0 * share - n as real * share;
  }

  lemma CapIsPositive(measured: bool)
    ensures CapS(measured) > 0.0
  {
  }

  // ----- 31 days without ground truth -----

  /** Compute charged to the `count` days from `first`. */
  ghost function BilledOver(ledger: seq<Charge>, first: Day, count: nat): nat {
    if count == 0 then 0 else BilledOver(ledger, first, count - 1) + BilledMs(ledger, OnDay(first + count - 1))
  }

  ghost function EgressOver(ledger: seq<Charge>, first: Day, count: nat): int {
    if count == 0 then 0 else EgressOver(ledger, first, count - 1) + BilledEgress(ledger, OnDay(first + count - 1))
  }

  lemma OneDayMore(count: nat, perDay: real)
    requires count > 0
    ensures count as real * perDay == (count - 1) as real * perDay + perDay
  {
    assert count as real == (count - 1) as real + 1.0;
  }

  lemma {:induction false} ComputeOver(neonKey: bool, run: seq<Event>, first: Day, count: nat)
    requires IsRun(neonKey, run) && forall day :: first <= day < first + count ==>
             SettlementsFit(neonKey, run, OnDay(day))
    ensures var g := After(neonKey, run);
            CuSeconds(BilledOver(g.hist.ledger, first, count)) <= count as real * CapS(Measured(g.hist))
  {
    hide IsRun, SettlementsFit, After, CuSeconds, CapS, BilledMs, ReservedMs, Stored;
    var g := After(neonKey, run);
    var cap := CapS(Measured(g.hist));
    if count == 0 {
      NoCompute();
      assert 0 as real * cap == 0.0;
    } else {
      var day := first + count - 1;
      ComputeOver(neonKey, run, first, count - 1);
      FittingCeiling(neonKey, run, OnDay(day));
      ReserveCosts(g, OnDay(day));
      DayLimit(Measured(g.hist), day);
      CuSecondsAdds(BilledOver(g.hist.ledger, first, count - 1), BilledMs(g.hist.ledger, OnDay(day)));
      OneDayMore(count, cap);
    }
  }

  lemma DayLimit(measured: bool, day: Day)
    ensures LimitS(measured, OnDay(day)) == CapS(measured)
  {
  }

  lemma NoCompute()
    ensures CuSeconds(0) == 0.0
  {
  }

  lemma CapOver31Days()
    ensures 31 as real * CapS(false) == 90.0 * 3600.0
  {
  }

  /** Until a poll of Neon was applied (with or without a key), any 31 consecutive days whose settlements fit are
      charged at most 90 CU-hours. */
  lemma ThirtyOneDaysOfCompute(neonKey: bool, run: seq<Event>, first: Day)
    requires IsRun(neonKey, run) && After(neonKey, run).hist.applied == []
    requires forall day :: first <= day < first + 31 ==> SettlementsFit(neonKey, run, OnDay(day))
    ensures CuSeconds(BilledOver(After(neonKey, run).hist.ledger, first, 31)) <= 90.0 * 3600.0
  {
    hide IsRun, SettlementsFit, After, CuSeconds, CapS, BilledOver;
    ComputeOver(neonKey, run, first, 31);
    CapOver31Days();
  }

  lemma {:induction false} HeldIsNonnegative(leases: map<LeaseId, Lease>, who: Group)
    requires forall id :: id in leases ==> leases[id].egress >= 0
    ensures EgressHeld(leases, who) >= 0
  {
    Sums.SumAtLeast(EgressColumn(leases, who));
  }

  /** Until a poll of Neon was applied, and with no hypothesis on timing, a day's settled egress and its live
      leases' estimates stay within a day's share. */
  lemma DailyEgress(neonKey: bool, run: seq<Event>, day: Day)
    requires IsRun(neonKey, run) && After(neonKey, run).hist.applied == []
    ensures var g := After(neonKey, run);
            var settled, held := BilledEgress(g.hist.ledger, OnDay(day)), EgressHeld(g.leases, OnDay(day));
            settled as real <= EGRESS_STOP_BYTES / 31.0 && (settled + held) as real <= EGRESS_STOP_BYTES / 31.0
  {
    hide IsRun, Tables, Row;
    var g := After(neonKey, run);
    RunsAreGood(neonKey, run);
    assert EgressDue(g.leases, g.hist.ledger, day) as real <= EGRESS_DAILY_CONSERVATIVE_BYTES;
    forall id | id in g.leases ensures g.leases[id].egress >= 0 {
      LiveLeaseBounds(Live(g, Stored(g)), id);
    }
    HeldIsNonnegative(g.leases, OnDay(day));
  }

  lemma {:induction false} EgressBound(neonKey: bool, run: seq<Event>, first: Day, count: nat, perDay: real)
    requires IsRun(neonKey, run) && After(neonKey, run).hist.applied == [] && perDay == EGRESS_STOP_BYTES / 31.0
    ensures EgressOver(After(neonKey, run).hist.ledger, first, count) as real <= count as real * perDay
  {
    hide IsRun, After, BilledEgress, EgressHeld;
    if count > 0 {
      EgressBound(neonKey, run, first, count - 1, perDay);
      DailyEgress(neonKey, run, first + count - 1);
      OneDayMore(count, perDay);
    }
  }

  /** Then any 31 consecutive days are charged at most 4.5 GB of egress, whenever settlements come. */
  lemma ThirtyOneDaysOfEgress(neonKey: bool, run: seq<Event>, first: Day)
    requires IsRun(neonKey, run) && After(neonKey, run).hist.applied == []
    ensures EgressOver(After(neonKey, run).hist.ledger, first, 31) as real <= 4_500_000_000.0
  {
    hide IsRun, After, EgressOver;
    EgressBound(neonKey, run, first, 31, EGRESS_STOP_BYTES / 31.0);
  }

  // ----- the union -----

  /** On every run, the bridge counter is at least 2 CU for every instant of the union of all windows, in whatever
      order leases end; it is exactly that if and only if no charge counts an instant again that an earlier charge was
      made for and a trim then forgot, and so whenever no settlement finds an expiry overdue. */
  lemma ChargedAsAUnion(neonKey: bool, run: seq<Event>)
    requires IsRun(neonKey, run)
    ensures var g := After(neonKey, run);
            var ledger, union := g.hist.ledger, CuSeconds(|EverBilled(g.hist.ledger)|);
            && Stored(g).cuTotalS >= union
            && (Stored(g).cuTotalS == union <==> forall n :: 0 <= n < |ledger| ==> AgainMs(ledger, n) == 0)
            && (NeverOverdue(neonKey, run) ==> Stored(g).cuTotalS == union)
  {
    hide IsRun, NeverOverdue, Tables, Row, CeilingsHold, EgressHolds, AgainMs;
    var g := After(neonKey, run);
    RunsAreGood(neonKey, run);
    BilledIsUnionAndAgain(g.hist.ledger);
    AgainSigns(g.hist.ledger);
    CuSecondsMonotone(|EverBilled(g.hist.ledger)|, BilledMs(g.hist.ledger, Everyone));
    if NeverOverdue(neonKey, run) {
      RunsLoseNothing(neonKey, run);
    }
  }
}
