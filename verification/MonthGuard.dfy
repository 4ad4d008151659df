/** The month's guard between applied polls (edge/src/governor.ts:778-795). */
module MonthGuard {
  import opened Budget
  import opened Pacing
  import opened GovernorModel
  import opened Ledger
  import opened Reserves
  import opened Invariant
  import opened Events
  import opened Punctual
  import opened Overruns

  /** Egress month to date: Neon's figure, what was charged since its base, and the live leases. */
  ghost function EgressUse(w: Live, neon: NeonUsage): real {
    neon.dataTransferBytes + (w.st.egressTotal - neon.egressBase + EgressHeld(w.g.leases, Everyone)) as real
  }

  /** CU-seconds month to date, with what live leases would still add. */
  ghost function MonthUse(w: Live, neon: NeonUsage): real {
    MonthCuS(w.st, neon, ReservedMs(w.g.leases, Everyone, w.st.charged))
  }

  /** The same, net of what slipped. */
  ghost function NetUse(w: Live, neon: NeonUsage): real {
    MonthUse(w, neon) - CuSeconds(SlippedMs(w.g.hist.ledger, Everyone))
  }

  ghost predicate NoMoreUse(w: Live, w': Live, neon: NeonUsage) {
    EgressUse(w', neon) <= EgressUse(w, neon) && NetUse(w', neon) <= NetUse(w, neon)
  }

  // ----- what ends a lease uses no more -----

  lemma BillMovesTime(w: Live, c: Charge, keepAfter: int)
    requires IsCharge(w, c, keepAfter)
    ensures c.addedMs + ReservedMs(w.g.leases - {c.id}, Everyone, AddCharged(w.st.charged, c.window, keepAfter))
            <= ReservedMs(w.g.leases, Everyone, w.st.charged) + c.lateMs + c.lostMs
  {
    hide ReservedMs, AddedMs, LateMs, LostMs, AddCharged, Cover, OverrunMs;
    var charged' := AddCharged(w.st.charged, c.window, keepAfter);
    AddChargedMeaning(w.st.charged, c.window, keepAfter);
    ChargeMovesTime(w.g.leases, c.id, Everyone, w.st.charged, c.window, charged');
    OverrunIsSlip(w.g.leases, c.id, Everyone, w.st.charged, c.window, charged');
  }

  lemma BillUsesNoMore(w: Live, e: Ending, c: Charge, keepAfter: int, neon: NeonUsage)
    requires IsCharge(w, c, keepAfter)
    ensures NoMoreUse(w, EndAndBill(w, e, c, keepAfter), neon)
  {
    hide ReservedMs, AddedMs, LateMs, LostMs, EgressHeld, SlippedMs, AddCharged, Cover, CuSeconds;
    var w' := EndAndBill(w, e, c, keepAfter);
    HeldRemove(w.g.leases, c.id, Everyone);
    LedgerSnoc(w.g.hist.ledger, c, Everyone);
    BillMovesTime(w, c, keepAfter);
    var slipped := c.lateMs + c.lostMs;
    CuSecondsMonotone(c.addedMs + ReservedMs(w'.g.leases, Everyone, w'.st.charged),
                      ReservedMs(w.g.leases, Everyone, w.st.charged) + slipped);
    CuSecondsAdds(c.addedMs, ReservedMs(w'.g.leases, Everyone, w'.st.charged));
    CuSecondsAdds(ReservedMs(w.g.leases, Everyone, w.st.charged), slipped);
    CuSecondsAdds(SlippedMs(w.g.hist.ledger, Everyone), slipped);
  }

  lemma CloseUsesNoMore(w: Live, id: LeaseId, e: Ending, neon: NeonUsage)
    requires id in w.g.leases && w.g.leases[id].egress >= 0
    ensures NoMoreUse(w, Live(Close(w.g, id, e), w.st), neon)
  {
    HeldRemove(w.g.leases, id, Everyone);
    CoverRemove(w.g.leases, id, Everyone);
    SubsetSize(Cover(w.g.leases - {id}, Everyone) - Points(w.st.charged),
               Cover(w.g.leases, Everyone) - Points(w.st.charged));
    CuSecondsMonotone(ReservedMs(w.g.leases - {id}, Everyone, w.st.charged),
                      ReservedMs(w.g.leases, Everyone, w.st.charged));
  }

  lemma TrimUsesNoMore(w: Live, keepAfter: int, neon: NeonUsage)
    requires forall id :: id in w.g.leases ==> w.g.leases[id].admittedAt >= keepAfter
    ensures NoMoreUse(w, Live(w.g, Trim(w.st, keepAfter)), neon)
  {
    hide ReservedMs;
    TrimKeepsReserve(w.g.leases, Everyone, w.st.charged, keepAfter);
  }

  /** The figures read only the leases, the ledger, the windows and the counters. */
  lemma SameUse(w: Live, w': Live, neon: NeonUsage)
    requires w'.g.leases == w.g.leases && w'.g.hist.ledger == w.g.hist.ledger
    requires w'.st.charged == w.st.charged && w'.st.cuTotalS == w.st.cuTotalS && w'.st.egressTotal == w.st.egressTotal
    ensures NoMoreUse(w, w', neon) && MonthUse(w', neon) == MonthUse(w, neon)
    ensures EgressUse(w', neon) == EgressUse(w, neon) && NetUse(w', neon) == NetUse(w, neon)
  {
    hide ReservedMs, EgressHeld, SlippedMs;
  }

  lemma NoMoreTwice(a: Live, b: Live, c: Live, neon: NeonUsage)
    requires NoMoreUse(a, b, neon) && NoMoreUse(b, c, neon)
    ensures NoMoreUse(a, c, neon)
  {
    hide EgressUse, NetUse;
  }

  lemma ExpireOneUsesNoMore(w: Live, id: LeaseId, horizon: int, neon: NeonUsage)
    requires id in w.g.leases
    ensures NoMoreUse(w, ExpireOne(w, id, horizon), neon)
  {
    hide NoMoreUse, IsCharge, ExpiryCharge, ExpireOne, EndAndBill;
    ExpireOneIs(w, id, horizon);
    BillUsesNoMore(w, Expired, ExpiryCharge(w, id, horizon), horizon, neon);
  }

  lemma {:induction false} ExpireEachUsesNoMore(w: Live, order: seq<LeaseId>, horizon: int, neon: NeonUsage)
    ensures NoMoreUse(w, ExpireEach(w, order, horizon), neon)
  {
    hide NoMoreUse, Close, ChargeFor, Bill;
    if order == [] {
      SameUse(w, w, neon);
    } else {
      var n := |order| - 1;
      var w1 := ExpireEach(w, order[..n], horizon);
      ExpireEachUsesNoMore(w, order[..n], horizon, neon);
      if order[n] in w1.g.leases {
        ExpireOneUsesNoMore(w1, order[n], horizon, neon);
        NoMoreTwice(w, w1, ExpireOne(w1, order[n], horizon), neon);
      }
    }
  }

  lemma ExpireUsesNoMore(w: Live, now: int, order: seq<LeaseId>, neon: NeonUsage)
    requires Holds(w) && StaleOrder(w.g.leases, now, order)
    ensures NoMoreUse(w, Expire(w, now, order), neon)
  {
    hide Holds, NoMoreUse, ExpireEach, StaleOrder, OnlyExpired;
    if order == [] {
      SameUse(w, w, neon);
    } else {
      StaleOrderIds(w.g.leases, now, order);
      OrderTakesTheStale(w.g.leases, now, order);
      var horizon := w.g.leases[order[0]].admittedAt;
      var each := ExpireEach(w, order, horizon);
      ExpireEachHolds(w, order, horizon);
      ExpireEachUsesNoMore(w, order, horizon, neon);
      TrimUsesNoMore(each, now - LEASE_TTL_MS, neon);
      NoMoreTwice(w, each, Live(each.g, Trim(each.st, now - LEASE_TTL_MS)), neon);
    }
  }

  // ----- an admission uses more, within the guard -----

  /** What the monthly checks let through. */
  lemma ChecksKeepTheMonth(g: Gov, st: StateRow, now: int, prefix: Prefix, egressBytes: int, neon: NeonUsage)
    requires CurrentNeon(st, now, g.neonKey) == Some(neon) && ComputeDenial(g, st, now, prefix, egressBytes).None?
    ensures neon.dataTransferBytes
            + (st.egressTotal - neon.egressBase + EgressHeld(g.leases, Everyone)
               + egressBytes) as real < EGRESS_STOP_BYTES
    ensures MonthCuS(st, neon, UncoveredMs(g, st, Everyone, ProvisionalInterval(now))) / 3600.0
            <= AllowedAt(now, neon.periodStart, neon.periodEnd)
  {
    hide UncoveredMs, EgressHeld, AllowedAt, PacingResumesAt, Deny, CuSeconds, Exceeded, DailyCeilingS, MonthCuS,
         CurrentNeon;
  }

  lemma ReservedWith(g: Gov, st: StateRow, now: int, id: LeaseId, l: Lease)
    requires id !in g.leases && l.admittedAt == now
    ensures ReservedMs(g.leases[id := l], Everyone, st.charged)
            == UncoveredMs(g, st, Everyone, ProvisionalInterval(now))
  {
    hide Cover, Points;
    CoverInsert(g.leases, id, l, Everyone);
  }

  lemma IssueWithinGuard(w: Live, now: int, id: LeaseId, l: Lease, neon: NeonUsage)
    requires id !in w.g.leases && l.admittedAt == now && CurrentNeon(w.st, now, w.g.neonKey) == Some(neon)
    requires ComputeDenial(w.g, w.st, now, l.prefix, l.egress).None?
    ensures var w' := Live(Issue(w.g, id, l), w.st);
            EgressUse(w', neon) < EGRESS_STOP_BYTES
            && MonthUse(w', neon) <= 3600.0 * AllowedAt(now, neon.periodStart, neon.periodEnd)
  {
    hide ReservedMs, UncoveredMs, EgressHeld, AllowedAt, CuSeconds, ComputeDenial, MonthCuS, CurrentNeon;
    ChecksKeepTheMonth(w.g, w.st, now, l.prefix, l.egress, neon);
    HeldInsert(w.g.leases, id, l, Everyone);
    ReservedWith(w.g, w.st, now, id, l);
  }

  // ----- one event -----

  /** The ground truth the guard reads, between events. */
  predicate Reads(g: Gov, neon: NeonUsage) {
    g.neonKey && Stored(g).neon == Some(neon)
  }

  /** The event ends a poll whose figures replace the ground truth. */
  predicate AppliesPoll(g: Gov, e: Event) {
    e.PollEnds? && Applies(g, Load(g.row, e.now), e.now, e.polledAt, e.result)
  }

  /** After the event the use has not grown, or an admission left it within the guard. */
  ghost predicate UseGuarded(g: Gov, g': Gov, neon: NeonUsage) {
    var w, w' := Live(g, Stored(g)), Live(g', Stored(g'));
    && (EgressUse(w', neon) <= EgressUse(w, neon) || EgressUse(w', neon) < EGRESS_STOP_BYTES)
    && (NetUse(w', neon) <= NetUse(w, neon)
        || MonthUse(w', neon) <= 3600.0 * AllowedAt(g'.hist.clock, neon.periodStart, neon.periodEnd))
  }

  lemma NoMoreIsGuarded(g: Gov, g': Gov, neon: NeonUsage)
    requires NoMoreUse(Live(g, Stored(g)), Live(g', Stored(g')), neon)
    ensures UseGuarded(g, g', neon)
  {
    hide EgressUse, NetUse, MonthUse, AllowedAt;
  }

  lemma LoadUse(g: Gov, neon: NeonUsage)
    requires Good(g)
    ensures NoMoreUse(Live(g, Stored(g)), Live(g, Load(g.row, g.hist.clock)), neon)
    ensures Load(g.row, g.hist.clock).neon == Stored(g).neon
  {
    hide Holds, NoMoreUse;
    LoadHolds(g);
    SameUse(Live(g, Stored(g)), Live(g, Load(g.row, g.hist.clock)), neon);
  }

  lemma RequestIsGuarded(g: Gov, now: int, id: LeaseId, l: Lease, order: seq<LeaseId>, neon: NeonUsage)
    requires Good(g) && g.hist.clock == now && StaleOrder(g.leases, now, order) && Reads(g, neon)
             && now < neon.periodEnd
    requires id !in g.hist.issued && l.admittedAt == now
    ensures UseGuarded(g, Admission(g, now, id, l, order).g, neon) && Reads(Admission(g, now, id, l, order).g, neon)
  {
    hide Good, Holds, NoMoreUse, UseGuarded, StaleOrder, Expire, OnlyExpired, CountDenial, ComputeDenial, Admit,
         NoneStale, Load;
    var loaded := Live(g, Load(g.row, now));
    LoadHolds(g);
    LoadUse(g, neon);
    ExpireForRequest(g, now, order);
    ExpireUsesNoMore(loaded, now, order, neon);
    var w := Expire(loaded, now, order);
    ExpiredReads(loaded, w);
    var g1 := if order == [] then g else Save(w.g, w.st);
    NoMoreTwice(Live(g, Stored(g)), loaded, w, neon);
    SameUse(w, Live(g1, w.st), neon);
    SameUse(Live(g1, w.st), Live(Save(w.g, w.st), w.st), neon);
    if CountDenial(g, now, l).None? && ComputeDenial(g1, w.st, now, l.prefix, l.egress).None? {
      FreshIsNotLive(g1, id);
      AdmitIsGuarded(g, Live(g1, w.st), now, id, l, neon);
    } else if CountDenial(g, now, l).None? && order != [] {
      NoMoreTwice(Live(g, Stored(g)), w, Live(g1, Stored(g1)), neon);
      NoMoreIsGuarded(g, g1, neon);
    } else {
      SameUse(Live(g, Stored(g)), Live(g, Stored(g)), neon);
      NoMoreIsGuarded(g, g, neon);
    }
  }

  lemma ExpiredReads(w: Live, w': Live)
    requires OnlyExpired(w, w')
    ensures w'.st.neon == w.st.neon && w'.g.neonKey == w.g.neonKey && w'.g.hist.issued == w.g.hist.issued
            && w'.g.hist.clock == w.g.hist.clock
  {
  }

  lemma AdmitIsGuarded(g: Gov, w: Live, now: int, id: LeaseId, l: Lease, neon: NeonUsage)
    requires id !in w.g.leases && l.admittedAt == now && w.g.hist.clock == now
    requires w.g.neonKey && w.st.neon == Some(neon) && now < neon.periodEnd
    requires ComputeDenial(w.g, w.st, now, l.prefix, l.egress).None?
    ensures UseGuarded(g, Admit(w, now, id, l), neon) && Reads(Admit(w, now, id, l), neon)
  {
    hide ComputeDenial, EgressUse, NetUse, MonthUse, AllowedAt;
    IssueWithinGuard(w, now, id, l, neon);
    var g' := Admit(w, now, id, l);
    SameUse(Live(Issue(w.g, id, l), w.st), Live(g', Stored(g')), neon);
  }

  lemma SettleUsesNoMore(g: Gov, now: int, id: LeaseId, kind: SettleKind, dbMs: Option<int>, neon: NeonUsage)
    requires Good(g) && g.hist.clock == now
    ensures var g' := Settle(g, now, id, kind, dbMs);
            NoMoreUse(Live(g, Stored(g)), Live(g', Stored(g')), neon) && Stored(g').neon == Stored(g).neon
                && g'.neonKey == g.neonKey
  {
    hide Holds, NoMoreUse, IsCharge, SettlementCharge, Load;
    if id !in g.leases {
      SameUse(Live(g, Stored(g)), Live(g, Stored(g)), neon);
    } else if DbTouched(kind, dbMs) {
      hide Settle, Good, Close;
      LoadHolds(g);
      LoadUse(g, neon);
      SettleIs(g, now, id, kind, dbMs);
      var w, c := Live(g, Load(g.row, now)), SettlementCharge(g, now, id, kind, dbMs);
      var billed := EndAndBill(w, Settled(kind, dbMs), c, now - LEASE_TTL_MS);
      BillUsesNoMore(w, Settled(kind, dbMs), c, now - LEASE_TTL_MS, neon);
      NoMoreTwice(Live(g, Stored(g)), w, billed, neon);
      SameUse(billed, Live(Save(billed.g, billed.st), billed.st), neon);
      NoMoreTwice(Live(g, Stored(g)), billed, Live(Save(billed.g, billed.st), billed.st), neon);
      BilledReads(w, Settled(kind, dbMs), c, now - LEASE_TTL_MS);
    } else {
      LiveLeaseBounds(Live(g, Stored(g)), id);
      CloseUsesNoMore(Live(g, Stored(g)), id, Settled(kind, dbMs), neon);
    }
  }

  lemma BilledReads(w: Live, e: Ending, c: Charge, keepAfter: int)
    requires IsCharge(w, c, keepAfter)
    ensures EndAndBill(w, e, c, keepAfter).st.neon == w.st.neon
            && EndAndBill(w, e, c, keepAfter).g.neonKey == w.g.neonKey
  {
    hide AddedMs, LateMs, LostMs;
  }

  lemma AlarmUsesNoMore(g: Gov, now: int, order: seq<LeaseId>, neon: NeonUsage)
    requires Good(g) && g.hist.clock == now && StaleOrder(g.leases, now, order)
    ensures var g' := AlarmStart(g, now, order);
            NoMoreUse(Live(g, Stored(g)), Live(g', Stored(g')), neon) && Stored(g').neon == Stored(g).neon
                && g'.neonKey == g.neonKey
  {
    hide Good, Holds, NoMoreUse, StaleOrder, Expire, OnlyExpired, Load, PollDue, NoneStale;
    var loaded := Live(g, Load(g.row, now).(alarmAt := None));
    LoadHolds(g);
    LoadUse(g, neon);
    LoadedTimes(g);
    TimesHold(Live(g, Load(g.row, now)), loaded.st);
    SameUse(Live(g, Load(g.row, now)), loaded, neon);
    ExpireHolds(loaded, now, order);
    ExpireUsesNoMore(loaded, now, order, neon);
    ExpiredReads(loaded, Expire(loaded, now, order));
    var w, g' := AlarmWork(g, now, order), AlarmStart(g, now, order);
    AlarmWorkHolds(g, now, order);
    SameUse(Expire(loaded, now, order), w, neon);
    if !PollDue(w.g, w.st, now) {
      SavedFigures(w);
    }
    SameUse(w, Live(g', Stored(g')), neon);
    NoMoreTwice(Live(g, Stored(g)), Live(g, Load(g.row, now)), loaded, neon);
    NoMoreTwice(Live(g, Stored(g)), loaded, Expire(loaded, now, order), neon);
    NoMoreTwice(Live(g, Stored(g)), Expire(loaded, now, order), w, neon);
    NoMoreTwice(Live(g, Stored(g)), w, Live(g', Stored(g')), neon);
  }

  /** Loading what was just saved gives its figures back. */
  lemma SavedFigures(w: Live)
    requires Holds(w)
    ensures var st := Load(Some(w.st), w.g.hist.clock);
            st.charged == w.st.charged && st.cuTotalS == w.st.cuTotalS && st.egressTotal == w.st.egressTotal
                && st.neon == w.st.neon
  {
    hide Holds;
    SaveIsGood(w);
    LoadHolds(Save(w.g, w.st));
  }

  lemma PollEndUsesNoMore(g: Gov, now: int, polledAt: int, r: PollResult, neon: NeonUsage)
    requires Good(g) && g.hist.clock == now && polledAt in g.hist.polls
             && !Applies(g, Load(g.row, now), now, polledAt, r)
    ensures var g' := AlarmFinish(g, now, polledAt, r);
            NoMoreUse(Live(g, Stored(g)), Live(g', Stored(g')), neon) && Stored(g').neon == Stored(g).neon
                && g'.neonKey == g.neonKey
  {
    hide Good, Holds, NoMoreUse, Load, Applies, ApplyPoll;
    var w, g' := PollApplied(g, now, polledAt, r), AlarmFinish(g, now, polledAt, r);
    LoadHolds(g);
    PollAppliedHolds(g, now, polledAt, r);
    SavedFigures(w);
    NotApplied(g, Load(g.row, now), now, polledAt, r);
    SameUse(Live(g, Stored(g)), Live(g', Stored(g')), neon);
  }

  lemma NotApplied(g: Gov, st: StateRow, now: int, polledAt: int, r: PollResult)
    requires !Applies(g, st, now, polledAt, r)
    ensures var st' := ApplyPoll(g, st, now, polledAt, r); st' == st.(pollError := st'.pollError)
  {
    hide SanitizeNeon, PolledUsage;
  }

  /** One event that applies no poll, before the period ends, keeps the ground truth and its guards. */
  lemma NextIsGuarded(g: Gov, e: Event, neon: NeonUsage)
    requires Good(g) && Possible(g, e) && Reads(g, neon) && e.now < neon.periodEnd && !AppliesPoll(g, e)
    ensures UseGuarded(g, Next(g, e), neon) && Reads(Next(g, e), neon)
  {
    hide Good, NoMoreUse, Admission, Settle, AlarmStart, AlarmFinish, Restart, StaleOrder, EgressUse, NetUse, MonthUse,
         Load, Applies;
    var t := Tick(g, e.now);
    TickIsGood(g, e.now);
    SameUse(Live(g, Stored(g)), Live(t, Stored(t)), neon);
    match e
    case Request(now, id, l, order) => RequestIsGuarded(t, now, id, l, order, neon);
    case Settlement(now, id, kind, dbMs) =>
      SettleUsesNoMore(t, now, id, kind, dbMs, neon);
      NoMoreIsGuarded(t, Next(g, e), neon);
    case Alarm(now, order) =>
      AlarmUsesNoMore(t, now, order, neon);
      NoMoreIsGuarded(t, Next(g, e), neon);
    case PollEnds(now, polledAt, r) =>
      SameApplies(g, t, Load(g.row, now), now, polledAt, r);
      PollEndUsesNoMore(t, now, polledAt, r, neon);
      NoMoreIsGuarded(t, Next(g, e), neon);
    case Starts(now) =>
      RestartIsNothing(t, now);
      SameUse(Live(t, Stored(t)), Live(t, Stored(t)), neon);
      NoMoreIsGuarded(t, t, neon);
  }

  lemma SameApplies(g: Gov, g': Gov, st: StateRow, now: int, polledAt: int, r: PollResult)
    requires g'.days == g.days
    ensures Applies(g', st, now, polledAt, r) <==> Applies(g, st, now, polledAt, r)
  {
    hide SanitizeNeon;
  }

  // ----- stretches of a run between applied polls -----

  /** The governor after more events. */
  ghost function Onward(g: Gov, more: seq<Event>): Gov {
    if more == [] then g else Next(Onward(g, more[..|more| - 1]), more[|more| - 1])
  }

  /** Possible events, none of which applies a poll, all before the period ends. */
  ghost predicate Between(g: Gov, more: seq<Event>, neon: NeonUsage) {
    more == []
    || (var g1, e := Onward(g, more[..|more| - 1]), more[|more| - 1];
        Between(g, more[..|more| - 1], neon) && Possible(g1, e) && e.now < neon.periodEnd && !AppliesPoll(g1, e))
  }

  /** Egress month to date, once below the stop, stays below it until a poll replaces the figures. */
  lemma {:induction false} EgressStaysBelowTheStop(g: Gov, more: seq<Event>, neon: NeonUsage)
    requires Good(g) && Reads(g, neon) && Between(g, more, neon)
    requires EgressUse(Live(g, Stored(g)), neon) < EGRESS_STOP_BYTES
    ensures var g' := Onward(g, more);
            Good(g') && Reads(g', neon) && EgressUse(Live(g', Stored(g')), neon) < EGRESS_STOP_BYTES
  {
    hide Good, Next, Possible, EgressUse, NetUse, MonthUse, AllowedAt, AppliesPoll;
    if more != [] {
      var n := |more| - 1;
      var g1 := Onward(g, more[..n]);
      EgressStaysBelowTheStop(g, more[..n], neon);
      NextIsGuarded(g1, more[n], neon);
      NextIsGood(g1, more[n]);
    }
  }

  lemma NetIs(w: Live, neon: NeonUsage)
    ensures MonthUse(w, neon) == NetUse(w, neon) + CuSeconds(SlippedMs(w.g.hist.ledger, Everyone))
    ensures CuSeconds(SlippedMs(w.g.hist.ledger, Everyone)) >= 0.0
  {
    hide MonthUse;
  }

  /** Events only append to the ledger, and set the clock. */
  ghost predicate Grows(h: History, h': History) {
    h'.clock == h.clock && h.ledger <= h'.ledger
  }

  lemma {:induction false} ExpireEachGrows(w: Live, order: seq<LeaseId>, horizon: int)
    ensures Grows(w.g.hist, ExpireEach(w, order, horizon).g.hist)
  {
    hide ChargeFor;
    if order != [] {
      ExpireEachGrows(w, order[..|order| - 1], horizon);
    }
  }

  lemma ExpireGrows(w: Live, now: int, order: seq<LeaseId>)
    ensures Grows(w.g.hist, Expire(w, now, order).g.hist)
  {
    hide ExpireEach;
    if order != [] && order[0] in w.g.leases {
      ExpireEachGrows(w, order, w.g.leases[order[0]].admittedAt);
    }
  }

  lemma NextGrows(g: Gov, e: Event)
    ensures Grows(g.hist.(clock := e.now), Next(g, e).hist)
  {
    hide Expire, Load, CountDenial, ComputeDenial, PollDue, Applies, ApplyPoll, Schedule, ChargeFor;
    match e
    case Request(now, id, l, order) => ExpireGrows(Live(Tick(g, now), Load(g.row, now)), now, order);
    case Settlement(_, _, _, _) =>
    case Alarm(now, order) => ExpireGrows(Live(Tick(g, now), Load(g.row, now).(alarmAt := None)), now, order);
    case PollEnds(_, _, _) =>
    case Starts(_) =>
  }

  lemma PossibleIsLater(g: Gov, e: Event)
    requires Possible(g, e)
    ensures g.hist.clock <= e.now
  {
  }

  lemma {:induction false} SlipsOfPrefix(a: seq<Charge>, b: seq<Charge>, who: Group)
    requires a <= b
    ensures SlippedMs(a, who) <= SlippedMs(b, who)
  {
    if |a| < |b| {
      SlipsOfPrefix(a, b[..|b| - 1], who);
    } else {
      assert a == b;
    }
  }

  lemma {:induction false} OnwardGrows(g: Gov, more: seq<Event>)
    ensures g.hist.ledger <= Onward(g, more).hist.ledger
  {
    hide Next;
    if more != [] {
      OnwardGrows(g, more[..|more| - 1]);
      NextGrows(Onward(g, more[..|more| - 1]), more[|more| - 1]);
    }
  }

  /** Compute month to date, once within the line, exceeds it by at most what slipped since. */
  lemma {:induction false} MonthStaysOnTheLine(g: Gov, more: seq<Event>, neon: NeonUsage)
    requires Good(g) && Reads(g, neon) && Between(g, more, neon)
    requires MonthUse(Live(g, Stored(g)), neon) <= 3600.0 * AllowedAt(g.hist.clock, neon.periodStart, neon.periodEnd)
    ensures var g' := Onward(g, more);
            && Good(g') && Reads(g', neon) && g'.hist.clock >= g.hist.clock
            && NetUse(Live(g', Stored(g')), neon) + CuSeconds(SlippedMs(g.hist.ledger, Everyone))
               <= 3600.0 * AllowedAt(g'.hist.clock, neon.periodStart, neon.periodEnd)
  {
    hide Good, Next, Possible, EgressUse, NetUse, MonthUse, AllowedAt, AppliesPoll, CuSeconds, SlippedMs, Reads, Stored;
    if more == [] {
      NetIs(Live(g, Stored(g)), neon);
    } else {
      var n := |more| - 1;
      var g1, e := Onward(g, more[..n]), more[n];
      MonthStaysOnTheLine(g, more[..n], neon);
      NextIsGuarded(g1, e, neon);
      NextIsGood(g1, e);
      NextGrows(g1, e);
      PossibleIsLater(g1, e);
      AllowedIsMonotone(g1.hist.clock, e.now, neon.periodStart, neon.periodEnd);
      NetIs(Live(Next(g1, e), Stored(Next(g1, e))), neon);
      OnwardGrows(g, more);
      SlipsOfPrefix(g.hist.ledger, Onward(g, more).hist.ledger, Everyone);
      CuSecondsMonotone(SlippedMs(g.hist.ledger, Everyone), SlippedMs(Onward(g, more).hist.ledger, Everyone));
    }
  }

  /** The line never allows more than 85 CU-hours. */
  lemma LineIsCapped(now: int, periodStart: int, periodEnd: int)
    ensures AllowedAt(now, periodStart, periodEnd) <= 85.0
  {
  }

  // ----- exactly when the month stays on the line -----

  /** The month's compute is within the pacing line. */
  ghost predicate OnLine(g: Gov, neon: NeonUsage) {
    MonthUse(Live(g, Stored(g)), neon) <= 3600.0 * AllowedAt(g.hist.clock, neon.periodStart, neon.periodEnd)
  }

  /** A settlement's overrun, known before it, is at most what the line has left at its time. */
  ghost predicate MonthFits(g: Gov, e: Event, neon: NeonUsage) {
    SettlesWithCharge(g, e) ==>
      MonthUse(Live(g, Stored(g)), neon) + CuSeconds(SettlementOverrunMs(g, e, Everyone))
      <= 3600.0 * AllowedAt(e.now, neon.periodStart, neon.periodEnd)
  }

  lemma MonthIs(g: Gov, neon: NeonUsage)
    requires Good(g)
    ensures MonthUse(Live(g, Stored(g)), neon) == neon.computeTimeS - neon.cuBaseS + CuSeconds(StoredUseMs(g, Everyone))
  {
    hide Tables, Row, CeilingsHold, EgressHolds, ChargesCover, ReservedMs, BilledMs;
    CuSecondsAdds(BilledMs(g.hist.ledger, Everyone), ReservedMs(g.leases, Everyone, Stored(g).charged));
  }

  lemma LessIsOnLine(g: Gov, g': Gov, neon: NeonUsage)
    requires Good(g) && Good(g') && OnLine(g, neon) && g.hist.clock <= g'.hist.clock
    requires StoredUseMs(g', Everyone) <= StoredUseMs(g, Everyone)
    ensures OnLine(g', neon)
  {
    hide Good, MonthUse, StoredUseMs, AllowedAt, CuSeconds;
    MonthIs(g, neon);
    MonthIs(g', neon);
    CuSecondsMonotone(StoredUseMs(g', Everyone), StoredUseMs(g, Everyone));
    AllowedIsMonotone(g.hist.clock, g'.hist.clock, neon.periodStart, neon.periodEnd);
  }

  lemma AdmitIsOnLine(w: Live, now: int, id: LeaseId, l: Lease, neon: NeonUsage)
    requires id !in w.g.leases && l.admittedAt == now && w.g.hist.clock == now
    requires w.g.neonKey && w.st.neon == Some(neon) && now < neon.periodEnd
    requires ComputeDenial(w.g, w.st, now, l.prefix, l.egress).None?
    ensures OnLine(Admit(w, now, id, l), neon)
  {
    hide ComputeDenial, EgressUse, NetUse, MonthUse, AllowedAt;
    IssueWithinGuard(w, now, id, l, neon);
    var g' := Admit(w, now, id, l);
    SameUse(Live(Issue(w.g, id, l), w.st), Live(g', Stored(g')), neon);
  }

  lemma CheckedReads(t: Gov, now: int, order: seq<LeaseId>, neon: NeonUsage)
    requires Good(t) && t.hist.clock == now && StaleOrder(t.leases, now, order) && Reads(t, neon)
    ensures Checked(t, now, order).g.neonKey && Checked(t, now, order).st.neon == Some(neon)
  {
    hide Good, Holds, StaleOrder, Expire, OnlyExpired, NoneStale, Load;
    LoadHolds(t);
    ExpireForRequest(t, now, order);
    ExpiredReads(Live(t, Load(t.row, now)), Expire(Live(t, Load(t.row, now)), now, order));
  }

  lemma RequestIsOnLine(t: Gov, e: Event, neon: NeonUsage)
    requires Good(t) && t.hist.clock == e.now >= 0 && Possible(t, e) && e.Request? && Good(Next(t, e))
    requires Reads(t, neon) && OnLine(t, neon) && e.now < neon.periodEnd
    ensures OnLine(Next(t, e), neon)
  {
    hide Good, Holds, OnLine, Admission, StaleOrder, Checked, CountDenial, ComputeDenial, Admit, NoneStale,
         StoredUseMs, UseMs, Reads;
    assert Tick(t, e.now) == t;
    RequestUse(t, e.now, e.id, e.lease, e.order, Everyone);
    CheckedReads(t, e.now, e.order, neon);
    if Passes(t, e.now, e.lease, e.order) {
      AdmitIsOnLine(Checked(t, e.now, e.order), e.now, e.id, e.lease, neon);
    } else {
      NextGrows(t, e);
      LessIsOnLine(t, Next(t, e), neon);
    }
  }

  lemma SettleIsOnLineIff(t: Gov, e: Event, neon: NeonUsage)
    requires Good(t) && t.hist.clock == e.now && Possible(t, e) && SettlesWithCharge(t, e) && Good(Next(t, e))
    ensures OnLine(Next(t, e), neon) <==> MonthFits(t, e, neon)
  {
    hide Good, MonthUse, StoredUseMs, AllowedAt, CuSeconds, SettlementOverrunMs, Settle;
    assert Tick(t, e.now) == t;
    SettleUse(t, e, Everyone);
    MonthIs(t, neon);
    MonthIs(Next(t, e), neon);
    CuSecondsAdds(StoredUseMs(t, Everyone), SettlementOverrunMs(t, e, Everyone));
    NextGrows(t, e);
  }

  lemma TickIsOnLine(g: Gov, e: Event, neon: NeonUsage)
    requires g.hist.clock <= e.now
    ensures var t := Tick(g, e.now);
            && (OnLine(g, neon) ==> OnLine(t, neon)) && (MonthFits(t, e, neon) <==> MonthFits(g, e, neon))
            && (SettlesWithCharge(t, e) <==> SettlesWithCharge(g, e)) && (Reads(g, neon) ==> Reads(t, neon))
  {
    hide AllowedAt, ReservedMs, OverrunMs;
    AllowedIsMonotone(g.hist.clock, e.now, neon.periodStart, neon.periodEnd);
  }

  /** An event that applies no poll keeps the month on the line if and only if it is no settlement whose overrun
      passes what the line has left. */
  lemma NextIsOnLineIff(g: Gov, e: Event, neon: NeonUsage)
    requires Good(g) && Possible(g, e) && Reads(g, neon) && e.now < neon.periodEnd && OnLine(g, neon)
    ensures OnLine(Next(g, e), neon) <==> MonthFits(g, e, neon)
  {
    hide Good, OnLine, MonthFits, Reads, StaleOrder, Admission, Settle, AlarmStart, AlarmFinish, Restart,
         SettlesWithCharge, StoredUseMs;
    var t := Tick(g, e.now);
    NonNegativeClock(g);
    TickIsGood(g, e.now);
    TickIsOnLine(g, e, neon);
    NextIsGood(g, e);
    assert Next(t, e) == Next(g, e);
    if SettlesWithCharge(t, e) {
      SettleIsOnLineIff(t, e, neon);
    } else {
      FitsVacuously(t, e, neon);
      if e.Request? {
        RequestIsOnLine(t, e, neon);
      } else {
        OthersUseNoMore(t, e, Everyone);
        NextGrows(t, e);
        LessIsOnLine(t, Next(t, e), neon);
      }
    }
  }

  lemma FitsVacuously(g: Gov, e: Event, neon: NeonUsage)
    requires !SettlesWithCharge(g, e)
    ensures MonthFits(g, e, neon)
  {
  }

  ghost predicate AlwaysOnLine(g: Gov, more: seq<Event>, neon: NeonUsage) {
    OnLine(Onward(g, more), neon) && (more != [] ==> AlwaysOnLine(g, more[..|more| - 1], neon))
  }

  ghost predicate MonthSettlementsFit(g: Gov, more: seq<Event>, neon: NeonUsage) {
    more == []
    || (MonthSettlementsFit(g, more[..|more| - 1], neon)
        && MonthFits(Onward(g, more[..|more| - 1]), more[|more| - 1], neon))
  }

  /** Between applied polls, the month's compute, once within the line, is within it at every moment if and only if
      every settlement's overrun is at most what the line has left. */
  lemma {:induction false} MonthStaysOnTheLineIff(g: Gov, more: seq<Event>, neon: NeonUsage)
    requires Good(g) && Reads(g, neon) && Between(g, more, neon) && OnLine(g, neon)
    ensures AlwaysOnLine(g, more, neon) <==> MonthSettlementsFit(g, more, neon)
    ensures Good(Onward(g, more)) && Reads(Onward(g, more), neon)
  {
    hide Good, Next, Possible, OnLine, MonthFits, Reads, UseGuarded, AppliesPoll;
    if more != [] {
      var n := |more| - 1;
      var g1 := Onward(g, more[..n]);
      MonthStaysOnTheLineIff(g, more[..n], neon);
      NextIsGuarded(g1, more[n], neon);
      NextIsGood(g1, more[n]);
      if AlwaysOnLine(g, more[..n], neon) {
        NextIsOnLineIff(g1, more[n], neon);
      }
    }
  }

  /** A settlement within the deadline that finds no expiry overdue fits. */
  lemma PunctualMonthFits(g: Gov, e: Event, neon: NeonUsage)
    requires OnLine(g, neon) && NoneOverdue(g, e) && InTime(g, e) && g.hist.clock <= e.now
    ensures MonthFits(g, e, neon)
  {
    hide MonthUse, OverrunMs, AddCharged, CuSeconds, AllowedAt;
    if SettlesWithCharge(g, e) {
      var l := g.leases[e.id];
      var window := Window(DbStart(l.admittedAt, e.now, e.dbMs), e.now);
      PunctualChargeFits(g.leases, e.id, Everyone, Stored(g).charged, window, e.now - LEASE_TTL_MS);
      CuSecondsMonotone(SettlementOverrunMs(g, e, Everyone), 0);
      CuSecondsAdds(0, 0);
      AllowedIsMonotone(g.hist.clock, e.now, neon.periodStart, neon.periodEnd);
    }
  }

  /** The month's compute, once within the line, stays within it while settlements fit, and so within 85 CU-hours,
      until a poll replaces the figures. */
  lemma MonthStaysWithin85CuHours(g: Gov, more: seq<Event>, neon: NeonUsage)
    requires Good(g) && Reads(g, neon) && Between(g, more, neon) && OnLine(g, neon)
             && MonthSettlementsFit(g, more, neon)
    ensures var g' := Onward(g, more);
            && MonthUse(Live(g', Stored(g')), neon)
               <= 3600.0 * AllowedAt(g'.hist.clock, neon.periodStart, neon.periodEnd)
            && MonthUse(Live(g', Stored(g')), neon) <= 3600.0 * 85.0
  {
    hide Good, MonthUse, AllowedAt, Onward, Between, MonthSettlementsFit;
    MonthStaysOnTheLineIff(g, more, neon);
    LineIsCapped(Onward(g, more).hist.clock, neon.periodStart, neon.periodEnd);
  }

  ghost predicate MonthTimely(g: Gov, more: seq<Event>) {
    more == []
    || (var g1, e := Onward(g, more[..|more| - 1]), more[|more| - 1];
        MonthTimely(g, more[..|more| - 1]) && NoneOverdue(g1, e) && InTime(g1, e))
  }

  /** Settlements within the deadline that find no expiry overdue fit. */
  lemma {:induction false} TimelyMonthFits(g: Gov, more: seq<Event>, neon: NeonUsage)
    requires Good(g) && Reads(g, neon) && Between(g, more, neon) && OnLine(g, neon) && MonthTimely(g, more)
    ensures MonthSettlementsFit(g, more, neon)
  {
    hide Good, Next, OnLine, MonthFits, Reads, AppliesPoll, NoneOverdue, InTime, Possible;
    if more != [] {
      var n := |more| - 1;
      var g1 := Onward(g, more[..n]);
      TimelyMonthFits(g, more[..n], neon);
      MonthStaysOnTheLineIff(g, more[..n], neon);
      PossibleIsLater(g1, more[n]);
      PunctualMonthFits(g1, more[n], neon);
    }
  }
}
