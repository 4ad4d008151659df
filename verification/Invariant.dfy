/** What every event keeps, in small steps. */
module Invariant {
  import opened Budget
  import opened Pacing
  import opened GovernorModel
  import opened Ledger
  import opened Accounts
  import opened Reserves
  import opened Sanitizer

  ghost predicate PollsSound(polls: set<int>, purgedDay: Option<Day>, clock: int) {
    forall p :: p in polls ==> 0 <= p <= clock && purgedDay.Some? && DayOf(p) <= purgedDay.value
  }

  /** The stored bridge bases are the totals at the last two applied polls. */
  ghost predicate Bridged(neon: Option<NeonUsage>, h: History) {
    && (neon.Some? <==> h.applied != [])
    && (forall i :: 0 <= i < |h.applied| ==> h.applied[i] <= |h.ledger|)
    && (neon.Some? ==>
          var last := h.ledger[..h.applied[|h.applied| - 1]];
          neon.value.cuAtPollS == CuSeconds(BilledMs(last, Everyone))
              && neon.value.egressAtPoll == BilledEgress(last, Everyone))
    && (neon.Some? && |h.applied| >= 2 ==>
          var previous := h.ledger[..h.applied[|h.applied| - 2]];
          neon.value.cuBaseS == CuSeconds(BilledMs(previous, Everyone))
              && neon.value.egressBase == BilledEgress(previous, Everyone))
  }

  ghost predicate Tables(w: Live) {
    && LeasesAccounted(w.g.leases, w.g.hist)
    && DaysAccounted(w.g.days, w.g.hist)
    && LiveDaysKept(w.g.days, w.g.leases)
    && NetworksAccounted(w.g.prefixes, w.st.purgedDay, w.g.hist)
  }

  ghost predicate Charges(w: Live) {
    && TotalsAccounted(w.st, w.g.hist)
    && CeilingsHold(Measured(w.g.hist), w.g.leases, w.g.hist.ledger, w.st.charged)
    && EgressHolds(Measured(w.g.hist), w.g.leases, w.g.hist.ledger)
    && ChargesCover(w.g.hist.ledger, w.st.charged)
  }

  ghost predicate Row(w: Live) {
    && w.g.hist.clock >= 0
    && Sound(w.st, w.g.hist.clock)
    && PollsSound(w.g.hist.polls, w.st.purgedDay, w.g.hist.clock)
    && (!w.g.neonKey ==> w.g.hist.polls == {} && w.g.hist.applied == [])
    && Bridged(w.st.neon, w.g.hist)
  }

  /** The invariant, at any moment of an event. */
  ghost predicate Holds(w: Live) {
    Tables(w) && Charges(w) && Row(w)
  }

  // ----- ending a lease -----

  function EndAndBill(w: Live, e: Ending, c: Charge, keepAfter: int): Live
    requires c.id in w.g.leases
  {
    Bill(Live(Close(w.g, c.id, e), w.st), c, keepAfter)
  }

  /** `c` charges a live lease what it adds to the windows charged so far. */
  ghost predicate IsCharge(w: Live, c: Charge, keepAfter: int) {
    && c.id in w.g.leases && c.lease == w.g.leases[c.id]
    && c.addedMs == AddedMs(w.st.charged, c.window) && c.lateMs == LateMs(w.st.charged, c.lease, c.window)
    && c.lostMs == LostMs(w.st.charged, c.window, AddCharged(w.st.charged, c.window, keepAfter),
                          Cover(w.g.leases - {c.id}, Everyone))
  }

  lemma EndKeepsLeases(leases: map<LeaseId, Lease>, h: History, id: LeaseId, e: Ending)
    requires LeasesAccounted(leases, h) && id in leases && !MustCharge(e)
    ensures LeasesAccounted(leases - {id}, h.(ended := h.ended[id := e]))
  {
  }

  lemma EndAndBillKeepsLeases(leases: map<LeaseId, Lease>, h: History, id: LeaseId, e: Ending, c: Charge)
    requires LeasesAccounted(leases, h) && id in leases && MustCharge(e) && c.id == id && c.lease == leases[id]
    ensures LeasesAccounted(leases - {id}, h.(ended := h.ended[id := e], ledger := h.ledger + [c]))
  {
    var h' := h.(ended := h.ended[id := e], ledger := h.ledger + [c]);
    forall i | 0 <= i < |h.ledger| ensures h'.ledger[i].id != id {
      assert h.ledger[i].id in h.ended;
    }
    assert h'.ledger[|h.ledger|] == c;
    forall other | other in h'.ended && MustCharge(h'.ended[other]) ensures ChargedIn(h'.ledger, other) {
      if other != id {
        assert ChargedIn(h.ledger, other);
        var i :| 0 <= i < |h.ledger| && h.ledger[i].id == other;
        assert h'.ledger[i].id == other;
      }
    }
  }

  lemma EndAndBillKeepsTables(w: Live, e: Ending, c: Charge, keepAfter: int)
    requires Tables(w) && c.id in w.g.leases && c.lease == w.g.leases[c.id] && MustCharge(e)
    ensures Tables(EndAndBill(w, e, c, keepAfter))
  {
    var l, h := c.lease, w.g.hist;
    var h1 := h.(ended := h.ended[c.id := e]);
    EndAndBillKeepsLeases(w.g.leases, h, c.id, e, c);
    CloseKeepsDays(w.g.days, h, c.id, e);
    BillKeepsDays(if RefundsCounts(l, e) then RefundDay(w.g.days, l) else w.g.days, h1, c);
    CloseKeepsNetworks(w.g.prefixes, w.st.purgedDay, h, c.id, e);
    BillKeepsNetworks(if RefundsPrefix(l, e) then RefundNetwork(w.g.prefixes, NetworkOf(l))
                      else w.g.prefixes, w.st.purgedDay, h1, c);
  }

  lemma BillKeepsTotals(st: StateRow, st': StateRow, h: History, c: Charge)
    requires TotalsAccounted(st, h)
    requires st'.cuTotalS == st.cuTotalS + CuSeconds(c.addedMs) && st'.egressTotal == st.egressTotal + c.lease.egress
    ensures TotalsAccounted(st', h.(ledger := h.ledger + [c]))
  {
    LedgerSnoc(h.ledger, c, Everyone);
    CuSecondsAdds(BilledMs(h.ledger, Everyone), c.addedMs);
  }

  lemma EndAndBillKeepsCharges(w: Live, e: Ending, c: Charge, keepAfter: int)
    requires Charges(w) && IsCharge(w, c, keepAfter)
    ensures Charges(EndAndBill(w, e, c, keepAfter))
  {
    var w' := EndAndBill(w, e, c, keepAfter);
    BillKeepsTotals(w.st, w'.st, w.g.hist, c);
    AddChargedMeaning(w.st.charged, c.window, keepAfter);
    BillKeepsCeilings(Measured(w.g.hist), w.g.leases, w.g.hist.ledger, w.st.charged, c, w'.st.charged);
    BillKeepsEgress(Measured(w.g.hist), w.g.leases, w.g.hist.ledger, c);
    BillKeepsCover(w.g.hist.ledger, w.st.charged, c, keepAfter);
  }

  lemma WindowsBoundPoints(xs: seq<Interval>, now: int)
    requires WindowsClean(xs, now)
    ensures forall t :: t in Points(xs) ==> 0 <= t < now + MAX_WINDOW_AHEAD_MS
  {
    forall t | t in Points(xs) ensures 0 <= t < now + MAX_WINDOW_AHEAD_MS {
      PointsAre(xs, t);
    }
  }

  lemma AddChargedClean(charged: seq<Interval>, window: Interval, keepAfter: int, now: int)
    requires WindowsClean(charged, now)
    requires 0 <= window.start && window.end <= now + MAX_WINDOW_AHEAD_MS
    ensures WindowsClean(AddCharged(charged, window, keepAfter), now)
  {
    WindowsBoundPoints(charged, now);
    AddChargedMeaning(charged, window, keepAfter);
    BoundedPointsBoundWindows(AddCharged(charged, window, keepAfter), now);
  }

  /** A bridge base stays where it is when the ledger grows. */
  lemma BridgedGrows(neon: Option<NeonUsage>, h: History, c: Charge)
    requires Bridged(neon, h)
    ensures Bridged(neon, h.(ledger := h.ledger + [c]))
  {
    forall n: nat | n <= |h.ledger| ensures (h.ledger + [c])[..n] == h.ledger[..n] {
    }
  }

  lemma SoundStep(st: StateRow, st': StateRow, now: int)
    requires Sound(st, now) && WindowsClean(st'.charged, now)
    requires st' == st.(charged := st'.charged, cuTotalS := st'.cuTotalS, egressTotal := st'.egressTotal)
    requires st.cuTotalS <= st'.cuTotalS && st.egressTotal <= st'.egressTotal
    ensures Sound(st', now)
  {
  }

  lemma EndAndBillKeepsRow(w: Live, e: Ending, c: Charge, keepAfter: int)
    requires Row(w) && c.id in w.g.leases && c.lease.egress >= 0
    requires 0 <= c.window.start && c.window.end <= w.g.hist.clock + MAX_WINDOW_AHEAD_MS
    ensures Row(EndAndBill(w, e, c, keepAfter))
  {
    var w' := EndAndBill(w, e, c, keepAfter);
    AddChargedClean(w.st.charged, c.window, keepAfter, w.g.hist.clock);
    CuSecondsMonotone(0, c.addedMs);
    SoundStep(w.st, w'.st, w.g.hist.clock);
    BridgedGrows(w.st.neon, w.g.hist.(ended := w.g.hist.ended[c.id := e]), c);
  }

  lemma LiveLeaseSound(w: Live, id: LeaseId)
    requires Tables(w) && id in w.g.leases
    ensures LeaseSound(w.g.leases[id], w.g.hist.clock)
  {
  }

  lemma EndAndBillHolds(w: Live, e: Ending, c: Charge, keepAfter: int)
    requires Holds(w) && IsCharge(w, c, keepAfter) && MustCharge(e)
    requires c.lease.admittedAt <= c.window.start && c.window.end <= w.g.hist.clock + MAX_WINDOW_AHEAD_MS
    ensures Holds(EndAndBill(w, e, c, keepAfter))
  {
    hide Tables, Charges, Row, EndAndBill, AddedMs, LateMs, LostMs, AddCharged, Cover;
    LiveLeaseSound(w, c.id);
    EndAndBillKeepsTables(w, e, c, keepAfter);
    EndAndBillKeepsCharges(w, e, c, keepAfter);
    EndAndBillKeepsRow(w, e, c, keepAfter);
  }

  lemma CloseKeepsTables(w: Live, id: LeaseId, e: Ending)
    requires Tables(w) && id in w.g.leases && !MustCharge(e)
    ensures Tables(Live(Close(w.g, id, e), w.st))
  {
    EndKeepsLeases(w.g.leases, w.g.hist, id, e);
    CloseKeepsDays(w.g.days, w.g.hist, id, e);
    CloseKeepsNetworks(w.g.prefixes, w.st.purgedDay, w.g.hist, id, e);
  }

  lemma CloseKeepsCharges(w: Live, id: LeaseId, e: Ending)
    requires Charges(w) && id in w.g.leases && w.g.leases[id].egress >= 0
    ensures Charges(Live(Close(w.g, id, e), w.st))
  {
    CloseKeepsCeilings(Measured(w.g.hist), w.g.leases, id, w.g.hist.ledger, w.st.charged);
    CloseKeepsEgress(Measured(w.g.hist), w.g.leases, id, w.g.hist.ledger);
  }

  lemma CloseKeepsRow(w: Live, id: LeaseId, e: Ending)
    requires Row(w) && id in w.g.leases
    ensures Row(Live(Close(w.g, id, e), w.st))
  {
  }

  lemma CloseHolds(w: Live, id: LeaseId, e: Ending)
    requires Holds(w) && id in w.g.leases && !MustCharge(e)
    ensures Holds(Live(Close(w.g, id, e), w.st))
  {
    hide Tables, Charges, Row, Close;
    LiveLeaseSound(w, id);
    CloseKeepsTables(w, id, e);
    CloseKeepsCharges(w, id, e);
    CloseKeepsRow(w, id, e);
  }

  // ----- expiry -----

  lemma TrimHolds(w: Live, keepAfter: int)
    requires Holds(w)
    requires forall id :: id in w.g.leases ==> w.g.leases[id].admittedAt >= keepAfter
    ensures Holds(Live(w.g, Trim(w.st, keepAfter)))
  {
    hide LeasesAccounted, DaysAccounted, LiveDaysKept, NetworksAccounted, EndingAfter, CeilingsHold, EgressHolds,
         ChargesCover, TotalsAccounted, WindowsClean;
    TrimKeepsCeilings(Measured(w.g.hist), w.g.leases, w.g.hist.ledger, w.st.charged, keepAfter);
    TrimKeepsCover(w.g.hist.ledger, w.st.charged, keepAfter);
    TrimKeepsClean(w.st.charged, keepAfter, w.g.hist.clock);
    TrimKeepsTotals(w.st, keepAfter, w.g.hist);
  }

  lemma TrimKeepsClean(charged: seq<Interval>, keepAfter: int, now: int)
    requires WindowsClean(charged, now)
    ensures WindowsClean(EndingAfter(charged, keepAfter), now)
  {
    EndingAfterNormal(charged, keepAfter);
    var trimmed := EndingAfter(charged, keepAfter);
    forall i | 0 <= i < |trimmed| ensures 0 <= trimmed[i].start && trimmed[i].end <= now + MAX_WINDOW_AHEAD_MS {
      assert trimmed[i] in charged;
    }
  }

  lemma TrimKeepsTotals(st: StateRow, keepAfter: int, h: History)
    requires TotalsAccounted(st, h)
    ensures TotalsAccounted(Trim(st, keepAfter), h)
  {
  }

  /** What charging changes in the state row, and all it changes. */
  predicate OnlyCharges(st: StateRow, st': StateRow) {
    st' == st.(charged := st'.charged, cuTotalS := st'.cuTotalS, egressTotal := st'.egressTotal)
  }

  /** Expiry charges and drops leases: counts, identities and everything else stay. */
  ghost predicate OnlyExpired(w: Live, w': Live) {
    && OnlyCharges(w.st, w'.st)
    && w'.g.neonKey == w.g.neonKey && w'.g.row == w.g.row
    && w'.g.hist == w.g.hist.(ended := w'.g.hist.ended, ledger := w'.g.hist.ledger)
    && (forall d: Day :: SameDayCounts(DayRowOf(w.g.days, d), DayRowOf(w'.g.days, d)))
    && (forall n: Network :: SameUseCounts(UseOf(w.g.prefixes, n), UseOf(w'.g.prefixes, n)))
  }

  predicate SameDayCounts(r: DayRow, r': DayRow) {
    r' == r.(cuS := r'.cuS, egress := r'.egress)
  }

  predicate SameUseCounts(r: PrefixRow, r': PrefixRow) {
    r' == r.(cuS := r'.cuS)
  }

  /** The charge of an expiring lease. */
  ghost function ExpiryCharge(w: Live, id: LeaseId, horizon: int): Charge
    requires id in w.g.leases
  {
    var l := w.g.leases[id];
    ChargeFor(Live(Close(w.g, id, Expired), w.st), id, l, l.admittedAt, l.admittedAt + PROVISIONAL_BUSY_MS, horizon)
  }

  lemma ExpireOneIs(w: Live, id: LeaseId, horizon: int)
    requires id in w.g.leases
    ensures var c, l := ExpiryCharge(w, id, horizon), w.g.leases[id];
            && IsCharge(w, c, horizon) && c.id == id && c.lease == l
            && c.window == ProvisionalInterval(l.admittedAt)
            && ExpireOne(w, id, horizon) == EndAndBill(w, Expired, c, horizon)
  {
    hide AddedMs, LateMs, LostMs, AddCharged, Cover;
  }

  lemma ExpireOneHolds(w: Live, id: LeaseId, horizon: int)
    requires Holds(w) && id in w.g.leases
    ensures Holds(ExpireOne(w, id, horizon))
  {
    LiveLeaseBounds(w, id);
    hide Holds, EndAndBill, ExpireOne, IsCharge, ExpiryCharge;
    ExpireOneIs(w, id, horizon);
    EndAndBillHolds(w, Expired, ExpiryCharge(w, id, horizon), horizon);
  }

  lemma LiveLeaseBounds(w: Live, id: LeaseId)
    requires Holds(w) && id in w.g.leases
    ensures 0 <= w.g.leases[id].admittedAt <= w.g.hist.clock && w.g.leases[id].egress >= 0
    ensures w.g.leases[id].day == DayOf(w.g.leases[id].admittedAt)
  {
    LiveLeaseSound(w, id);
  }

  lemma EndAndBillFrame(w: Live, c: Charge, keepAfter: int)
    requires c.id in w.g.leases && c.lease == w.g.leases[c.id]
    ensures OnlyExpired(w, EndAndBill(w, Expired, c, keepAfter))
    ensures EndAndBill(w, Expired, c, keepAfter).g.leases == w.g.leases - {c.id}
  {
  }

  lemma ExpireOneFrame(w: Live, id: LeaseId, horizon: int)
    requires id in w.g.leases
    ensures OnlyExpired(w, ExpireOne(w, id, horizon))
    ensures ExpireOne(w, id, horizon).g.leases == w.g.leases - {id}
  {
    hide EndAndBill, OnlyExpired, ExpireOne, IsCharge, ExpiryCharge;
    ExpireOneIs(w, id, horizon);
    EndAndBillFrame(w, ExpiryCharge(w, id, horizon), horizon);
  }

  lemma OnlyExpiredTwice(a: Live, b: Live, c: Live)
    requires OnlyExpired(a, b) && OnlyExpired(b, c)
    ensures OnlyExpired(a, c)
  {
    forall d: Day ensures SameDayCounts(DayRowOf(a.g.days, d), DayRowOf(c.g.days, d)) {
      assert SameDayCounts(DayRowOf(b.g.days, d), DayRowOf(c.g.days, d));
    }
    forall n: Network ensures SameUseCounts(UseOf(a.g.prefixes, n), UseOf(c.g.prefixes, n)) {
      assert SameUseCounts(UseOf(b.g.prefixes, n), UseOf(c.g.prefixes, n));
    }
  }

  function Ids(order: seq<LeaseId>): set<LeaseId> {
    set id | id in order
  }

  lemma OnlyExpiredNothing(w: Live)
    ensures OnlyExpired(w, w)
  {
  }

  lemma TakeOneMore(leases: map<LeaseId, Lease>, order: seq<LeaseId>)
    requires order != []
    ensures leases - Ids(order) == leases - Ids(order[..|order| - 1]) - {order[|order| - 1]}
  {
    assert Ids(order) == Ids(order[..|order| - 1]) + {order[|order| - 1]};
  }

  lemma {:induction false} ExpireEachHolds(w: Live, order: seq<LeaseId>, horizon: int)
    requires Holds(w)
    requires forall i :: 0 <= i < |order| ==> order[i] in w.g.leases
    requires forall i, j :: 0 <= i < j < |order| ==> order[i] != order[j]
    ensures Holds(ExpireEach(w, order, horizon))
    ensures OnlyExpired(w, ExpireEach(w, order, horizon))
    ensures ExpireEach(w, order, horizon).g.leases == w.g.leases - Ids(order)
  {
    hide Holds, OnlyExpired, ExpireOne;
    if order == [] {
      OnlyExpiredNothing(w);
      assert w.g.leases - Ids(order) == w.g.leases;
    } else {
      var n := |order| - 1;
      ExpireEachHolds(w, order[..n], horizon);
      var w1 := ExpireEach(w, order[..n], horizon);
      assert order[n] !in Ids(order[..n]);
      ExpireOneHolds(w1, order[n], horizon);
      ExpireOneFrame(w1, order[n], horizon);
      OnlyExpiredTwice(w, w1, ExpireOne(w1, order[n], horizon));
      TakeOneMore(w.g.leases, order);
    }
  }

  ghost predicate NoneStale(leases: map<LeaseId, Lease>, now: int) {
    forall id :: id in leases ==> !IsStale(leases[id], now)
  }

  lemma OrderTakesTheStale(leases: map<LeaseId, Lease>, now: int, order: seq<LeaseId>)
    requires StaleOrder(leases, now, order)
    ensures NoneStale(leases - Ids(order), now)
  {
  }

  lemma TrimFrame(w: Live, w1: Live, keepAfter: int)
    requires OnlyExpired(w, w1)
    ensures OnlyExpired(w, Live(w1.g, Trim(w1.st, keepAfter)))
  {
  }

  lemma ExpireSomeHolds(w: Live, now: int, order: seq<LeaseId>)
    requires Holds(w) && order != []
    requires forall i :: 0 <= i < |order| ==> order[i] in w.g.leases
    requires forall i, j :: 0 <= i < j < |order| ==> order[i] != order[j]
    requires NoneStale(w.g.leases - Ids(order), now)
    ensures Holds(Expire(w, now, order))
    ensures OnlyExpired(w, Expire(w, now, order))
    ensures Expire(w, now, order).g.leases == w.g.leases - Ids(order)
  {
    hide Holds, OnlyExpired, ExpireEach;
    var horizon := w.g.leases[order[0]].admittedAt;
    var each := ExpireEach(w, order, horizon);
    ExpireEachHolds(w, order, horizon);
    TrimHolds(each, now - LEASE_TTL_MS);
    TrimFrame(w, each, now - LEASE_TTL_MS);
  }

  lemma ExpireHolds(w: Live, now: int, order: seq<LeaseId>)
    requires Holds(w) && StaleOrder(w.g.leases, now, order)
    ensures Holds(Expire(w, now, order))
    ensures OnlyExpired(w, Expire(w, now, order))
    ensures NoneStale(Expire(w, now, order).g.leases, now)
    ensures Expire(w, now, order).g.leases == w.g.leases - Ids(order)
  {
    hide Holds, OnlyExpired, NoneStale;
    OrderTakesTheStale(w.g.leases, now, order);
    if order == [] {
      OnlyExpiredNothing(w);
      assert w.g.leases - Ids(order) == w.g.leases;
    } else {
      ExpireSomeHolds(w, now, order);
    }
  }

  // ----- purge -----

  lemma PurgeKeepsDays(w: Live, now: int)
    requires DaysAccounted(w.g.days, w.g.hist) && w.g.hist.clock == now
    ensures DaysAccounted(Purge(w, now).g.days, w.g.hist)
  {
    var days' := Purge(w, now).g.days;
    forall d | d in days' || d >= DayOf(now) - DAY_RETENTION_DAYS ensures DayRowIs(DayRowOf(days', d), w.g.hist, d) {
      assert DayRowOf(days', d) == DayRowOf(w.g.days, d);
    }
  }

  lemma UntouchedDay(leases: map<LeaseId, Lease>, h: History, day: Day)
    requires LeasesAccounted(leases, h)
    requires forall id :: id in h.issued ==> h.issued[id].day < day
    ensures forall n: Network :: n.day == day ==> NetworkRowIs(NO_USE, h, n)
  {
    forall n: Network | n.day == day ensures NetworkRowIs(NO_USE, h, n) {
      UntouchedNetwork(leases, h, n);
    }
  }

  lemma PurgeKeepsNetworks(w: Live, now: int)
    requires LeasesAccounted(w.g.leases, w.g.hist)
    requires NetworksAccounted(w.g.prefixes, w.st.purgedDay, w.g.hist) && w.st.purgedDay != Some(DayOf(now))
    requires w.st.purgedDay.Some? ==> w.st.purgedDay.value <= DayOf(now)
    ensures NetworksAccounted(Purge(w, now).g.prefixes, Some(DayOf(now)), w.g.hist)
  {
    hide LeasesAccounted, NetworkRowIs;
    var prefixes', today, h := Purge(w, now).g.prefixes, DayOf(now), w.g.hist;
    forall id | id in h.issued ensures h.issued[id].day < today {
      assert h.issued[id].day <= w.st.purgedDay.value;
    }
    assert prefixes' == map[];
    UntouchedDay(w.g.leases, h, today);
  }

  lemma PurgeKeepsTables(w: Live, now: int)
    requires Tables(w) && Row(w) && w.g.hist.clock == now
    requires forall id :: id in w.g.leases ==> w.g.leases[id].day >= DayOf(now) - DAY_RETENTION_DAYS
    requires w.st.purgedDay != Some(DayOf(now))
    ensures Tables(Purge(w, now))
  {
    hide DaysAccounted, LeasesAccounted, NetworksAccounted;
    PurgeKeepsDays(w, now);
    PurgeKeepsNetworks(w, now);
  }

  lemma PurgeOnceHolds(w: Live, now: int)
    requires Holds(w) && w.g.hist.clock == now
    requires forall id :: id in w.g.leases ==> w.g.leases[id].day >= DayOf(now) - DAY_RETENTION_DAYS
    ensures Holds(PurgeOnce(w, now)) && PurgeOnce(w, now).st.purgedDay == Some(DayOf(now))
  {
    if w.st.purgedDay != Some(DayOf(now)) {
      PurgeKeepsTables(w, now);
      PurgeKeepsRest(w, now);
    }
  }

  lemma PurgeKeepsRest(w: Live, now: int)
    requires Charges(w) && Row(w) && w.g.hist.clock == now
    ensures Charges(Purge(w, now)) && Row(Purge(w, now))
  {
    forall p | p in w.g.hist.polls ensures DayOf(p) <= DayOf(now) {
      DayOfIsMonotone(p, now);
    }
  }
}
