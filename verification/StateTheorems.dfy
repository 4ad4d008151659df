/** What is stored: transparent loads, exact rows, and a bridge that loses nothing. */
module StateTheorems {
  import opened Budget
  import opened Pacing
  import opened GovernorModel
  import opened Ledger
  import opened Accounts
  import opened Sanitizer
  import opened Invariant
  import opened Events
  import opened CeilingTheorems
  import Sums

  // ----- the sanitiser is invisible -----

  /** What any later load returns is what was saved, up to the first 64 characters of the poll error:
      exactly what was saved if and only if that text is no longer. */
  lemma LoadsWhatWasSaved(neonKey: bool, run: seq<Event>, later: int)
    requires IsRun(neonKey, run) && After(neonKey, run).row.Some?
    requires later >= After(neonKey, run).hist.clock
    ensures var st := After(neonKey, run).row.value;
            Load(Some(st), later) == st.(pollError := CutError(st.pollError))
            && (Load(Some(st), later) == st <==> st.pollError.None? || |st.pollError.value| <= POLL_ERROR_LENGTH)
  {
    hide IsRun, After, Tables, Charges, Sound, SanitizeState;
    var g := After(neonKey, run);
    RunsAreGood(neonKey, run);
    SoundLater(g.row.value, g.hist.clock, later);
    LoadSound(g.row.value, later);
  }

  /** A restart, at any later time, deletes nothing. */
  lemma RestartDeletesNothing(neonKey: bool, run: seq<Event>, later: int)
    requires IsRun(neonKey, run) && later >= After(neonKey, run).hist.clock
    ensures Restart(After(neonKey, run), later) == After(neonKey, run)
  {
    hide IsRun, After, Holds, LeasePossible;
    var g := After(neonKey, run);
    RunsAreGood(neonKey, run);
    TickIsGood(g, later);
    RestartIsNothing(Tick(g, later), later);
    assert Restart(Tick(g, later), later) == Restart(g, later).(hist := Tick(g, later).hist);
  }

  // ----- lease accounting -----

  /** Every lease issued is live or ended, not both, and is charged once if its ending calls for it and
      never otherwise; rows of the last forty days are the exact tallies and charges of those leases. */
  lemma EverythingIsAccounted(neonKey: bool, run: seq<Event>)
    requires IsRun(neonKey, run)
    ensures var g := After(neonKey, run);
            && LeasesAccounted(g.leases, g.hist)
            && DaysAccounted(g.days, g.hist)
            && NetworksAccounted(g.prefixes, Stored(g).purgedDay, g.hist)
  {
    hide IsRun, After, LeasesAccounted, DaysAccounted, NetworksAccounted;
    RunsAreGood(neonKey, run);
  }

  /** The caps hold in every row, and no count is negative. */
  lemma CapsHold(neonKey: bool, run: seq<Event>)
    requires IsRun(neonKey, run)
    ensures var g := After(neonKey, run);
            && (forall d :: d in g.days ==>
                  0 <= g.days[d].admitted <= 600 && 0 <= g.days[d].heavy <= 300 && 0 <= g.days[d].lookups <= 2000
                      && 0 <= g.days[d].refunded)
            && (forall n :: n in g.prefixes ==>
                  0 <= g.prefixes[n].count <= 60 && g.prefixes[n].attempts <= 300 && 0 <= g.prefixes[n].lookups <= 200
                  && g.prefixes[n].count <= g.prefixes[n].attempts)
  {
    hide IsRun, After, LeasesAccounted, Tallied, BilledMs, BilledEgress, CuSeconds;
    var g := After(neonKey, run);
    EverythingIsAccounted(neonKey, run);
    forall d | d in g.days
      ensures 0 <= g.days[d].admitted <= 600 && 0 <= g.days[d].heavy <= 300 && 0 <= g.days[d].lookups <= 2000
              && 0 <= g.days[d].refunded
    {
      assert DayRowIs(DayRowOf(g.days, d), g.hist, d);
      SubTally(g.hist, Refunds, Analyses, OnDay(d));
      HeavyRefundsAreFewer(g.hist, OnDay(d));
    }
    forall n | n in g.prefixes
      ensures 0 <= g.prefixes[n].count <= 60 && g.prefixes[n].attempts <= 300 && 0 <= g.prefixes[n].lookups <= 200
              && g.prefixes[n].count <= g.prefixes[n].attempts
    {
      assert NetworkRowIs(UseOf(g.prefixes, n), g.hist, n);
      SubTally(g.hist, PrefixRefunds, Analyses, OnNetwork(n));
    }
  }

  /** The clamps at zero never bite: a refund always has a count to give back. */
  lemma ClampsNeverBite(neonKey: bool, run: seq<Event>, id: LeaseId, e: Ending)
    requires IsRun(neonKey, run) && id in After(neonKey, run).leases
    ensures RefundHasCounts(After(neonKey, run), id, e)
  {
    hide Good, RefundHasCounts;
    RunsAreGood(neonKey, run);
    RefundFindsItsCounts(After(neonKey, run), id, e);
  }

  predicate RefundHasCounts(g: Gov, id: LeaseId, e: Ending)
    requires id in g.leases
  {
    var l := g.leases[id];
    && l.day in g.days
    && (RefundsCounts(l, e) ==> g.days[l.day].admitted >= 1 && g.days[l.day].heavy >= l.heavy)
    && (RefundsPrefix(l, e) && NetworkOf(l) in g.prefixes ==> g.prefixes[NetworkOf(l)].count >= 1)
  }

  lemma RefundFindsItsCounts(g: Gov, id: LeaseId, e: Ending)
    requires Good(g) && id in g.leases
    ensures RefundHasCounts(g, id, e)
  {
    hide Charges, Row, Tallied, BilledMs, BilledEgress, CuSeconds;
    var l, h := g.leases[id], g.hist;
    assert LeaseSound(l, h.clock);
    assert DayRowIs(DayRowOf(g.days, l.day), h, l.day);
    if RefundsCounts(l, e) {
      NotYetRefunded(h, id, Refunds, Analyses, OnDay(l.day));
      if l.heavy == 1 {
        NotYetRefunded(h, id, HeavyRefunds, Heavies, OnDay(l.day));
      } else {
        HeavyRefundsAreFewer(h, OnDay(l.day));
      }
    }
    if RefundsPrefix(l, e) && NetworkOf(l) in g.prefixes {
      assert NetworkRowIs(UseOf(g.prefixes, NetworkOf(l)), h, NetworkOf(l));
      NotYetRefunded(h, id, PrefixRefunds, Analyses, OnNetwork(NetworkOf(l)));
    }
  }

  // ----- a day's row and its networks' rows -----

  ghost function SizesByNetwork(ids: set<LeaseId>, issued: map<LeaseId, Lease>, networks: set<Network>): map<Network,
      int>
    requires ids <= issued.Keys
  {
    map n | n in networks :: |set id | id in ids && NetworkOf(issued[id]) == n|
  }

  /** Counting leases network by network counts each once. */
  lemma {:induction false} NetworksPartition(ids: set<LeaseId>, issued: map<LeaseId, Lease>, networks: set<Network>)
    requires ids <= issued.Keys
    requires forall id :: id in ids ==> NetworkOf(issued[id]) in networks
    ensures Sums.Sum(SizesByNetwork(ids, issued, networks)) == |ids|
  {
    var column := SizesByNetwork(ids, issued, networks);
    if ids == {} {
      assert forall n :: n in networks ==> (set id | id in ids && NetworkOf(issued[id]) == n) == {};
      Sums.SumOfZeros(column);
    } else {
      var id :| id in ids;
      var rest, own := ids - {id}, NetworkOf(issued[id]);
      var before := SizesByNetwork(rest, issued, networks);
      NetworksPartition(rest, issued, networks);
      OneLeaseMore(ids, id, issued, networks);
      Sums.SumUpdate(before, own, before[own] + 1);
      assert |ids| == |rest| + 1;
    }
  }

  lemma OneLeaseMore(ids: set<LeaseId>, id: LeaseId, issued: map<LeaseId, Lease>, networks: set<Network>)
    requires ids <= issued.Keys && id in ids && NetworkOf(issued[id]) in networks
    ensures var before, own := SizesByNetwork(ids - {id}, issued, networks), NetworkOf(issued[id]);
            SizesByNetwork(ids, issued, networks) == before[own := before[own] + 1]
  {
    var before, after, own := SizesByNetwork(ids - {id}, issued, networks), SizesByNetwork(ids, issued, networks),
        NetworkOf(issued[id]);
    forall n | n in networks ensures after[n] == before[n] + if n == own then 1 else 0 {
      var small := set other | other in ids - {id} && NetworkOf(issued[other]) == n;
      var large := set other | other in ids && NetworkOf(issued[other]) == n;
      if n == own {
        OneMember(small, large, id);
      } else {
        assert small == large;
      }
    }
  }

  /** A column of the network rows. */
  ghost function TallyColumn(h: History, t: Tally, networks: set<Network>): map<Network, int> {
    map n | n in networks :: Tallied(h, t, OnNetwork(n))
  }

  lemma TalliesAddUp(h: History, t: Tally, day: Day, networks: set<Network>)
    requires forall n :: n in networks ==> n.day == day
    requires forall id :: id in h.issued && h.issued[id].day == day ==> NetworkOf(h.issued[id]) in networks
    ensures Sums.Sum(TallyColumn(h, t, networks)) == Tallied(h, t, OnDay(day))
  {
    var ids := TallySet(h, t, OnDay(day));
    NetworksPartition(ids, h.issued, networks);
    forall n | n in networks ensures Tallied(h, t, OnNetwork(n)) == |set id | id in ids
           && NetworkOf(h.issued[id]) == n| {
      assert TallySet(h, t, OnNetwork(n)) == set id | id in ids && NetworkOf(h.issued[id]) == n;
    }
    assert TallyColumn(h, t, networks) == SizesByNetwork(ids, h.issued, networks);
  }

  function Attempts(prefixes: map<Network, PrefixRow>): map<Network, int> {
    map n | n in prefixes :: prefixes[n].attempts
  }

  function AnalysesCounted(prefixes: map<Network, PrefixRow>): map<Network, int> {
    map n | n in prefixes :: prefixes[n].count
  }

  function LookupsCounted(prefixes: map<Network, PrefixRow>): map<Network, int> {
    map n | n in prefixes :: prefixes[n].lookups
  }

  /** The rows of the purged day's networks against the row of their day. */
  lemma NetworkRowsAddUp(g: Gov)
    requires Good(g) && Stored(g).purgedDay.Some? && Stored(g).purgedDay.value in g.days
    ensures var day := g.days[Stored(g).purgedDay.value];
            && Sums.Sum(Attempts(g.prefixes)) == day.admitted + day.refunded
            && Sums.Sum(AnalysesCounted(g.prefixes)) >= day.admitted
            && Sums.Sum(LookupsCounted(g.prefixes)) == day.lookups
  {
    hide Charges, Row, LeasesAccounted, BilledMs, BilledEgress, CuSeconds, Tallied, Sums.Sum;
    var d, h, networks := Stored(g).purgedDay.value, g.hist, g.prefixes.Keys;
    assert DayRowIs(DayRowOf(g.days, d), h, d);
    assert forall n :: n in g.prefixes ==> NetworkRowIs(UseOf(g.prefixes, n), h, n);
    TalliesAddUp(h, Analyses, d, networks);
    TalliesAddUp(h, Lookups, d, networks);
    TalliesAddUp(h, PrefixRefunds, d, networks);
    SubTally(h, PrefixRefunds, Refunds, OnDay(d));
    assert Attempts(g.prefixes) == TallyColumn(h, Analyses, networks);
    assert LookupsCounted(g.prefixes) == TallyColumn(h, Lookups, networks);
    Sums.SumAdds(AnalysesCounted(g.prefixes), TallyColumn(h, PrefixRefunds, networks),
                 TallyColumn(h, Analyses, networks));
  }

  /** The compute on the purged day's row is the sum of the compute on its networks' rows. */
  lemma NetworkComputeAddsUp(g: Gov)
    requires Good(g) && Stored(g).purgedDay.Some? && Stored(g).purgedDay.value in g.days
    ensures var column := NetworkColumn(g.hist.ledger, g.prefixes.Keys);
            && (forall n :: n in g.prefixes ==> g.prefixes[n].cuS == CuSeconds(column[n]))
            && g.days[Stored(g).purgedDay.value].cuS == CuSeconds(Sums.Sum(column))
  {
    hide Charges, Row, BilledMs, BilledEgress, CuSeconds, Tallied, Sums.Sum;
    var d, ledger := Stored(g).purgedDay.value, g.hist.ledger;
    assert DayRowIs(DayRowOf(g.days, d), g.hist, d);
    assert forall n :: n in g.prefixes ==> NetworkRowIs(UseOf(g.prefixes, n), g.hist, n);
    forall i | 0 <= i < |ledger| && ledger[i].lease.day == d ensures NetworkOf(ledger[i].lease) in g.prefixes {
      assert ledger[i].id in g.hist.ended;
    }
    NetworksSumToDay(ledger, d, g.prefixes.Keys);
  }

  /** On every run, the network rows of the purged day add up to that day's row. */
  lemma RunsAddUp(neonKey: bool, run: seq<Event>)
    requires IsRun(neonKey, run)
    ensures var g := After(neonKey, run);
            Stored(g).purgedDay.Some? && Stored(g).purgedDay.value in g.days ==>
              var day := g.days[Stored(g).purgedDay.value];
              && Sums.Sum(Attempts(g.prefixes)) == day.admitted + day.refunded
              && Sums.Sum(AnalysesCounted(g.prefixes)) >= day.admitted
              && Sums.Sum(LookupsCounted(g.prefixes)) == day.lookups
              && (var column := NetworkColumn(g.hist.ledger, g.prefixes.Keys);
                  && (forall n :: n in g.prefixes ==> g.prefixes[n].cuS == CuSeconds(column[n]))
                  && day.cuS == CuSeconds(Sums.Sum(column)))
  {
    hide IsRun, After, Good, Sums.Sum, CuSeconds, BilledMs;
    RunsAreGood(neonKey, run);
    var g := After(neonKey, run);
    if Stored(g).purgedDay.Some? && Stored(g).purgedDay.value in g.days {
      NetworkRowsAddUp(g);
      NetworkComputeAddsUp(g);
    }
  }

  // ----- the bridge to Neon's figures -----

  lemma {:induction false} BilledConcat(a: seq<Charge>, b: seq<Charge>, who: Group)
    ensures BilledMs(a + b, who) == BilledMs(a, who) + BilledMs(b, who)
    ensures BilledEgress(a + b, who) == BilledEgress(a, who) + BilledEgress(b, who)
  {
    if b == [] {
      assert a + b == a;
    } else {
      var n := |b| - 1;
      BilledConcat(a, b[..n], who);
      LedgerSnoc(a + b[..n], b[n], who);
      assert a + b == a + b[..n] + [b[n]];
    }
  }

  lemma BilledSplit(ledger: seq<Charge>, at: nat, who: Group)
    requires at <= |ledger|
    ensures BilledMs(ledger, who) == BilledMs(ledger[..at], who) + BilledMs(ledger[at..], who)
    ensures BilledEgress(ledger, who) == BilledEgress(ledger[..at], who) + BilledEgress(ledger[at..], who)
  {
    assert ledger == ledger[..at] + ledger[at..];
    BilledConcat(ledger[..at], ledger[at..], who);
  }

  /** The counters are the sum of all charges ever made, polls in flight or not. */
  lemma CountersHoldEveryCharge(neonKey: bool, run: seq<Event>)
    requires IsRun(neonKey, run)
    ensures var g := After(neonKey, run);
            && Stored(g).cuTotalS == CuSeconds(BilledMs(g.hist.ledger, Everyone))
            && Stored(g).egressTotal == BilledEgress(g.hist.ledger, Everyone)
  {
    hide IsRun, After, Tables, Row;
    RunsAreGood(neonKey, run);
  }

  /** The totals when the poll before the last applied one was applied. */
  function PreviousPoll(h: History): nat
    requires |h.applied| >= 2
  {
    h.applied[|h.applied| - 2]
  }

  /** From the second applied poll on, the bridge is exactly what was charged since the one before it. */
  lemma BridgeIsSincePreviousPoll(neonKey: bool, run: seq<Event>, g: Gov)
    requires IsRun(neonKey, run) && g == After(neonKey, run) && |g.hist.applied| >= 2
    ensures var previous := PreviousPoll(g.hist);
            && Stored(g).neon.Some? && previous <= |g.hist.ledger|
            && Stored(g).cuTotalS - Stored(g).neon.value.cuBaseS
               == CuSeconds(BilledMs(g.hist.ledger[previous..], Everyone))
            && Stored(g).egressTotal - Stored(g).neon.value.egressBase
               == BilledEgress(g.hist.ledger[previous..], Everyone)
  {
    hide IsRun, After, Tables, BilledMs, BilledEgress, Sound, PollsSound;
    RunsAreGood(neonKey, run);
    CountersHoldEveryCharge(neonKey, run);
    var previous := PreviousPoll(g.hist);
    assert previous <= |g.hist.ledger|;
    BilledSplit(g.hist.ledger, previous, Everyone);
    CuSecondsAdds(BilledMs(g.hist.ledger[..previous], Everyone), BilledMs(g.hist.ledger[previous..], Everyone));
  }

  /** What the month's figures cover of the charges from `first` on. */
  ghost predicate MonthCovers(st: StateRow, neon: NeonUsage, ledger: seq<Charge>, first: nat)
    requires first <= |ledger|
  {
    && MonthCuS(st, neon, 0) >= CuSeconds(BilledMs(ledger[first..], Everyone))
    && neon.dataTransferBytes + (st.egressTotal - neon.egressBase) as real
       >= BilledEgress(ledger[first..], Everyone) as real
  }

  /** Whenever its period began: if Neon's figures cover what was charged in it up to the previous applied poll (of
      which there is nothing when it began later), the month's figures cover every charge since the period began. */
  lemma MonthIsNeverUnderstated(neonKey: bool, run: seq<Event>, g: Gov, periodFirst: nat)
    requires IsRun(neonKey, run) && g == After(neonKey, run) && |g.hist.applied| >= 2 && Stored(g).neon.Some?
    requires periodFirst <= |g.hist.ledger| && PreviousPoll(g.hist) <= |g.hist.ledger|
    requires periodFirst <= PreviousPoll(g.hist) ==>
               var charged := g.hist.ledger[periodFirst..PreviousPoll(g.hist)];
               Stored(g).neon.value.computeTimeS >= CuSeconds(BilledMs(charged, Everyone))
               && Stored(g).neon.value.dataTransferBytes >= BilledEgress(charged, Everyone) as real
    ensures MonthCovers(Stored(g), Stored(g).neon.value, g.hist.ledger, periodFirst)
  {
    hide IsRun, After, BilledMs, BilledEgress, Stored;
    BridgeIsSincePreviousPoll(neonKey, run, g);
    var ledger, previous := g.hist.ledger, PreviousPoll(g.hist);
    if periodFirst <= previous {
      var since := ledger[periodFirst..];
      BilledSplit(since, previous - periodFirst, Everyone);
      assert since[..previous - periodFirst] == ledger[periodFirst..previous];
      assert since[previous - periodFirst..] == ledger[previous..];
      CuSecondsAdds(BilledMs(ledger[periodFirst..previous], Everyone), BilledMs(ledger[previous..], Everyone));
    } else {
      RunsAreGood(neonKey, run);
      NeonIsNonnegative(g);
      LaterIsLess(g, previous, periodFirst);
    }
  }

  lemma NeonIsNonnegative(g: Gov)
    requires Good(g) && Stored(g).neon.Some?
    ensures Stored(g).neon.value.computeTimeS >= 0.0 && Stored(g).neon.value.dataTransferBytes >= 0.0
  {
    hide Tables, Charges, Bridged, PollsSound, WindowsClean;
  }

  lemma LaterIsLess(g: Gov, from: nat, first: nat)
    requires Good(g) && from <= first <= |g.hist.ledger|
    ensures CuSeconds(BilledMs(g.hist.ledger[first..], Everyone))
            <= CuSeconds(BilledMs(g.hist.ledger[from..], Everyone))
    ensures BilledEgress(g.hist.ledger[first..], Everyone) <= BilledEgress(g.hist.ledger[from..], Everyone)
  {
    hide Good, BilledMs, BilledEgress;
    var ledger, since := g.hist.ledger, g.hist.ledger[from..];
    LedgerEgress(g);
    BilledSplit(since, first - from, Everyone);
    assert since[first - from..] == ledger[first..];
    EgressIsNonnegative(since[..first - from], Everyone);
    CuSecondsMonotone(BilledMs(ledger[first..], Everyone), BilledMs(ledger[from..], Everyone));
  }

  lemma {:induction false} DayIsPartOfAll(ledger: seq<Charge>, who: Group)
    requires forall i :: 0 <= i < |ledger| ==> ledger[i].lease.egress >= 0
    ensures BilledMs(ledger, who) <= BilledMs(ledger, Everyone)
            && BilledEgress(ledger, who) <= BilledEgress(ledger, Everyone)
  {
    if ledger != [] {
      DayIsPartOfAll(ledger[..|ledger| - 1], who);
    }
  }

  /** The first applied poll re-counts its day's charges: no clamp bites. */
  lemma FirstPollRecountsItsDay(g: Gov, now: int, polledAt: int, r: PollResult)
    requires Good(g) && g.hist.clock == now && r.Usage? && Stored(g).neon.None?
    requires DayOf(polledAt) >= DayOf(now) - DAY_RETENTION_DAYS
    ensures var st := Load(g.row, now);
            var neon := PolledUsage(g, st, polledAt, r);
            && st.cuTotalS - neon.cuBaseS == CuSeconds(BilledMs(g.hist.ledger, OnDay(DayOf(polledAt))))
            && st.egressTotal - neon.egressBase == BilledEgress(g.hist.ledger, OnDay(DayOf(polledAt)))
  {
    hide Row, Tallied, DayOf, LeasesAccounted, NetworksAccounted;
    var d, ledger := DayOf(polledAt), g.hist.ledger;
    LoadHolds(g);
    assert DayRowIs(DayRowOf(g.days, d), g.hist, d);
    LedgerEgress(g);
    DayIsPartOfAll(ledger, OnDay(d));
    CuSecondsMonotone(BilledMs(ledger, OnDay(d)), BilledMs(ledger, Everyone));
    CuSecondsMonotone(0, BilledMs(ledger, OnDay(d)));
    EgressIsNonnegative(ledger, OnDay(d));
  }

  lemma {:induction false} EgressIsNonnegative(ledger: seq<Charge>, who: Group)
    requires forall i :: 0 <= i < |ledger| ==> ledger[i].lease.egress >= 0
    ensures BilledEgress(ledger, who) >= 0
  {
    if ledger != [] {
      EgressIsNonnegative(ledger[..|ledger| - 1], who);
    }
  }

  lemma LedgerEgress(g: Gov)
    requires Good(g)
    ensures forall i :: 0 <= i < |g.hist.ledger| ==> g.hist.ledger[i].lease.egress >= 0
  {
    hide Charges, Row, DaysAccounted, NetworksAccounted;
    forall i | 0 <= i < |g.hist.ledger| ensures g.hist.ledger[i].lease.egress >= 0 {
      assert LeaseSound(g.hist.issued[g.hist.ledger[i].id], g.hist.clock);
    }
  }
}
