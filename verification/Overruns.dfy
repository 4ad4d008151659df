/** What each event does to the compute a day or a network has been billed or has reserved, and so exactly
    when its ceiling holds (edge/src/governor.ts:520-560, 746-767, 899-925).
 */
module Overruns {
  import opened Budget
  import opened Pacing
  import opened GovernorModel
  import opened Ledger
  import opened Reserves
  import opened Sanitizer
  import opened Invariant
  import opened Events
  import opened Punctual

  /** Milliseconds billed to a group, and reserved by its live leases. */
  ghost function UseMs(w: Live, who: Group): nat {
    BilledMs(w.g.hist.ledger, who) + ReservedMs(w.g.leases, who, w.st.charged)
  }

  ghost function StoredUseMs(g: Gov, who: Group): nat { UseMs(Live(g, Stored(g)), who) }

  /** The group is within its ceiling. */
  ghost predicate Within(g: Gov, who: Group) {
    CuSeconds(StoredUseMs(g, who)) <= LimitS(Measured(g.hist), who)
  }

  /** The overrun a settlement is about to make, read off the governor before it. */
  ghost function SettlementOverrunMs(g: Gov, e: Event, who: Group): int
    requires SettlesWithCharge(g, e)
  {
    var charged, window := Stored(g).charged, Window(DbStart(g.leases[e.id].admittedAt, e.now, e.dbMs), e.now);
    OverrunMs(g.leases, e.id, who, charged, window, AddCharged(charged, window, e.now - LEASE_TTL_MS))
  }

  /** A settlement's overrun is at most what the group has left. */
  ghost predicate Fits(g: Gov, e: Event, who: Group) {
    SettlesWithCharge(g, e) ==>
      CuSeconds(StoredUseMs(g, who)) + CuSeconds(SettlementOverrunMs(g, e, who)) <= LimitS(Measured(g.hist), who)
  }

  // ----- charges -----

  lemma BillUse(w: Live, e: Ending, c: Charge, keepAfter: int, who: Group)
    requires IsCharge(w, c, keepAfter)
    ensures UseMs(EndAndBill(w, e, c, keepAfter), who)
         == UseMs(w, who) + OverrunMs(w.g.leases, c.id, who, w.st.charged, c.window,
                                      AddCharged(w.st.charged, c.window, keepAfter))
  {
    hide ReservedMs, AddedMs, LateMs, LostMs, AddCharged, Cover, OverrunMs;
    AddChargedMeaning(w.st.charged, c.window, keepAfter);
    LedgerSnoc(w.g.hist.ledger, c, who);
    ChargeMovesTime(w.g.leases, c.id, who, w.st.charged, c.window, AddCharged(w.st.charged, c.window, keepAfter));
  }

  /** A charge within its lease's provisional interval, whose horizon no other live lease precedes, never overruns. */
  lemma PunctualChargeFits(leases: map<LeaseId, Lease>, id: LeaseId, who: Group, charged: seq<Interval>,
                           window: Interval, keepAfter: int)
    requires id in leases && leases[id].admittedAt <= window.start
    requires window.end <= leases[id].admittedAt + PROVISIONAL_BUSY_MS + NEON_IDLE_TAIL_MS
    requires forall other :: other in leases && other != id ==> leases[other].admittedAt >= keepAfter
    ensures OverrunMs(leases, id, who, charged, window, AddCharged(charged, window, keepAfter)) <= 0
  {
    hide LateMs, LostMs, OverrunMs, Member;
    OverrunIsSlip(leases, id, who, charged, window, AddCharged(charged, window, keepAfter));
    NotLate(charged, leases[id], window);
    NotLost(charged, window, keepAfter, leases - {id});
  }

  lemma CloseUse(w: Live, id: LeaseId, e: Ending, who: Group)
    requires id in w.g.leases
    ensures UseMs(Live(Close(w.g, id, e), w.st), who) <= UseMs(w, who)
  {
    CoverRemove(w.g.leases, id, who);
    hide Cover, Points;
    SubsetSize(Cover(w.g.leases - {id}, who) - Points(w.st.charged), Cover(w.g.leases, who) - Points(w.st.charged));
  }

  // ----- expiry -----

  lemma ExpireOneUse(w: Live, id: LeaseId, horizon: int, who: Group)
    requires id in w.g.leases
    requires forall other :: other in w.g.leases ==> w.g.leases[other].admittedAt >= horizon
    ensures UseMs(ExpireOne(w, id, horizon), who) <= UseMs(w, who)
  {
    hide UseMs, IsCharge, EndAndBill, ExpireOne, OverrunMs, ExpiryCharge;
    ExpireOneIs(w, id, horizon);
    var c := ExpiryCharge(w, id, horizon);
    BillUse(w, Expired, c, horizon, who);
    PunctualChargeFits(w.g.leases, id, who, w.st.charged, c.window, horizon);
  }

  lemma {:induction false} ExpireEachUse(w: Live, order: seq<LeaseId>, horizon: int, who: Group)
    requires Holds(w)
    requires forall i :: 0 <= i < |order| ==> order[i] in w.g.leases
    requires forall i, j :: 0 <= i < j < |order| ==> order[i] != order[j]
    requires forall other :: other in w.g.leases ==> horizon <= w.g.leases[other].admittedAt
    ensures UseMs(ExpireEach(w, order, horizon), who) <= UseMs(w, who)
  {
    hide Holds, UseMs, ExpireOne, OnlyExpired;
    if order != [] {
      var n := |order| - 1;
      ExpireEachUse(w, order[..n], horizon, who);
      ExpireEachHolds(w, order[..n], horizon);
      assert order[n] !in Ids(order[..n]);
      ExpireOneUse(ExpireEach(w, order[..n], horizon), order[n], horizon, who);
    }
  }

  /** Expiry never overruns. */
  lemma ExpireUse(w: Live, now: int, order: seq<LeaseId>, who: Group)
    requires Holds(w) && StaleOrder(w.g.leases, now, order)
    ensures UseMs(Expire(w, now, order), who) <= UseMs(w, who)
  {
    hide Holds, StaleOrder, ExpireEach, OnlyExpired, EndingAfter;
    if order != [] {
      StaleOrderIds(w.g.leases, now, order);
      OldestFirst(w.g.leases, now, order);
      OrderTakesTheStale(w.g.leases, now, order);
      var horizon := w.g.leases[order[0]].admittedAt;
      var each := ExpireEach(w, order, horizon);
      ExpireEachHolds(w, order, horizon);
      ExpireEachUse(w, order, horizon, who);
      hide ReservedMs;
      TrimKeepsReserve(each.g.leases, who, each.st.charged, now - LEASE_TTL_MS);
    }
  }

  // ----- the events -----

  /** The figures read only the leases, the ledger and the windows. */
  lemma SameUse(w: Live, w': Live, who: Group)
    requires w'.g.leases == w.g.leases && w'.g.hist.ledger == w.g.hist.ledger && w'.st.charged == w.st.charged
    ensures UseMs(w', who) == UseMs(w, who)
  {
  }

  /** What an event does to a group: it leaves no more, or leaves it within its ceiling. */
  ghost predicate Kept(g: Gov, g': Gov, who: Group) {
    && g'.hist.applied == g.hist.applied
    && (StoredUseMs(g', who) <= StoredUseMs(g, who) || Within(g', who))
  }

  lemma AdmitUse(w: Live, now: int, id: LeaseId, l: Lease, who: Group)
    requires Holds(w) && w.g.hist.clock == now >= 0 && NoneStale(w.g.leases, now) && !who.Everyone?
    requires id !in w.g.leases && l.admittedAt == now && l.day == DayOf(now)
    requires ComputeDenial(w.g, w.st, now, l.prefix, l.egress).None?
    ensures var g' := Admit(w, now, id, l);
            && g'.hist.applied == w.g.hist.applied
            && (StoredUseMs(g', who) <= UseMs(w, who) || Within(g', who))
  {
    var p, g' := PurgeOnce(w, now), Admit(w, now, id, l);
    hide Tables, Charges, Row, ComputeDenial, PurgeOnce, Schedule, HasRoom;
    RecentDays(w, now);
    PurgeOnceHolds(w, now);
    PurgeIsInvisible(w, now, l);
    PurgeSame(w, now);
    PurgeKeepsWindows(w, now);
    RoomPassed(p, now, l);
    AdmitFigures(w, now, id, l);
    IssueUse(p, Live(g', Stored(g')), id, l, who);
  }

  lemma PurgeKeepsWindows(w: Live, now: int)
    ensures PurgeOnce(w, now).st.charged == w.st.charged
  {
  }

  lemma AdmitFigures(w: Live, now: int, id: LeaseId, l: Lease)
    ensures var g' := Admit(w, now, id, l);
            && g'.leases == w.g.leases[id := l] && g'.hist == w.g.hist.(issued := w.g.hist.issued[id := l])
            && Stored(g').charged == w.st.charged
  {
  }

  /** A lease that found room leaves its groups within their ceilings, and others as they were. */
  lemma IssueUse(w: Live, w': Live, id: LeaseId, l: Lease, who: Group)
    requires HasRoom(w, l) && id !in w.g.leases && !who.Everyone?
    requires w'.g.leases == w.g.leases[id := l] && w'.g.hist.ledger == w.g.hist.ledger && w'.st.charged == w.st.charged
    requires w'.g.hist.applied == w.g.hist.applied
    ensures UseMs(w', who) <= UseMs(w, who) || CuSeconds(UseMs(w', who)) <= LimitS(Measured(w'.g.hist), who)
  {
    CoverInsert(w.g.leases, id, l, who);
    hide Cover, Points, CuSeconds, LimitS, Provisional;
    if Member(l, who) {
      CuSecondsAdds(BilledMs(w.g.hist.ledger, who), ReservedMs(w'.g.leases, who, w.st.charged));
    } else {
      assert Cover(w.g.leases, who) + {} == Cover(w.g.leases, who);
    }
  }

  /** The governor a request is checked in: its stale leases have expired, and are saved if there were any. */
  ghost function Checked(g: Gov, now: int, order: seq<LeaseId>): Live {
    var w := Expire(Live(g, Load(g.row, now)), now, order);
    Live(if order == [] then g else Save(w.g, w.st), w.st)
  }

  ghost predicate Passes(g: Gov, now: int, l: Lease, order: seq<LeaseId>) {
    var w := Checked(g, now, order);
    CountDenial(g, now, l).None? && ComputeDenial(w.g, w.st, now, l.prefix, l.egress).None?
  }

  /** A request leaves no more until it is admitted. */
  lemma RequestUse(g: Gov, now: int, id: LeaseId, l: Lease, order: seq<LeaseId>, who: Group)
    requires Good(g) && g.hist.clock == now >= 0 && StaleOrder(g.leases, now, order) && id !in g.hist.issued
    ensures var w, g' := Checked(g, now, order), Admission(g, now, id, l, order).g;
            && Holds(w) && NoneStale(w.g.leases, now) && id !in w.g.leases && w.g.hist.clock == now
            && UseMs(w, who) <= StoredUseMs(g, who) && w.g.hist.applied == g.hist.applied
            && if Passes(g, now, l, order) then g' == Admit(w, now, id, l)
               else g'.hist.applied == g.hist.applied && StoredUseMs(g', who) <= StoredUseMs(g, who)
  {
    hide Good, Holds, UseMs, StaleOrder, Expire, OnlyExpired, CountDenial, ComputeDenial, Admit, NoneStale, Load;
    var loaded := Live(g, Load(g.row, now));
    LoadHolds(g);
    LoadKeepsWindows(g);
    SameUse(Live(g, Stored(g)), loaded, who);
    ExpireUse(loaded, now, order, who);
    ExpireForRequest(g, now, order);
    var w := Expire(loaded, now, order);
    ExpiredHistory(loaded, w);
    var g1 := if order == [] then g else Save(w.g, w.st);
    SameUse(w, Live(g1, w.st), who);
    if order != [] {
      SameUse(w, Live(g1, Stored(g1)), who);
    }
    FreshIsNotLive(g1, id);
  }

  lemma RequestKept(g: Gov, now: int, id: LeaseId, l: Lease, order: seq<LeaseId>, who: Group)
    requires Good(g) && g.hist.clock == now >= 0 && StaleOrder(g.leases, now, order) && id !in g.hist.issued
    requires !who.Everyone? && l.admittedAt == now && l.day == DayOf(now)
    ensures Kept(g, Admission(g, now, id, l, order).g, who)
  {
    hide Good, Holds, UseMs, Within, StaleOrder, Checked, CountDenial, ComputeDenial, Admit, Admission, NoneStale;
    RequestUse(g, now, id, l, order, who);
    if Passes(g, now, l, order) {
      AdmitUse(Checked(g, now, order), now, id, l, who);
    }
  }

  /** A settlement that charges changes the figures by exactly its overrun. */
  lemma SettleUse(g: Gov, e: Event, who: Group)
    requires Good(g) && g.hist.clock == e.now && SettlesWithCharge(g, e)
    ensures var g' := Settle(g, e.now, e.id, e.kind, e.dbMs);
            && StoredUseMs(g', who) == StoredUseMs(g, who) + SettlementOverrunMs(g, e, who)
            && g'.hist.applied == g.hist.applied
  {
    hide Good, UseMs, IsCharge, SettlementCharge, Settle, EndAndBill, Load, OverrunMs, AddCharged;
    var w, c := Live(g, Load(g.row, e.now)), SettlementCharge(g, e.now, e.id, e.kind, e.dbMs);
    LoadKeepsWindows(g);
    SameUse(Live(g, Stored(g)), w, who);
    SettleIs(g, e.now, e.id, e.kind, e.dbMs);
    BillUse(w, Settled(e.kind, e.dbMs), c, e.now - LEASE_TTL_MS, who);
    var billed := EndAndBill(w, Settled(e.kind, e.dbMs), c, e.now - LEASE_TTL_MS);
    SameUse(billed, Live(Save(billed.g, billed.st), billed.st), who);
    BillKeepsPolls(w, Settled(e.kind, e.dbMs), c, e.now - LEASE_TTL_MS);
  }

  lemma BillKeepsPolls(w: Live, e: Ending, c: Charge, keepAfter: int)
    requires c.id in w.g.leases
    ensures EndAndBill(w, e, c, keepAfter).g.hist.applied == w.g.hist.applied
  {
  }

  lemma CloseKept(g: Gov, now: int, id: LeaseId, kind: SettleKind, dbMs: Option<int>, who: Group)
    requires !(id in g.leases && DbTouched(kind, dbMs))
    ensures var g' := Settle(g, now, id, kind, dbMs);
            g'.hist.applied == g.hist.applied && StoredUseMs(g', who) <= StoredUseMs(g, who)
  {
    hide UseMs;
    if id in g.leases {
      CloseUse(Live(g, Stored(g)), id, Settled(kind, dbMs), who);
    }
  }

  lemma AlarmUse(g: Gov, now: int, order: seq<LeaseId>, who: Group)
    requires Good(g) && g.hist.clock == now && StaleOrder(g.leases, now, order)
    ensures var g' := AlarmStart(g, now, order);
            g'.hist.applied == g.hist.applied && StoredUseMs(g', who) <= StoredUseMs(g, who)
  {
    hide Good, Holds, UseMs, Within, StaleOrder, Expire, Load, PollDue, NoneStale, OnlyExpired;
    var loaded := Live(g, Load(g.row, now).(alarmAt := None));
    LoadHolds(g);
    LoadKeepsWindows(g);
    SameUse(Live(g, Stored(g)), loaded, who);
    LoadedTimes(g);
    TimesHold(Live(g, Load(g.row, now)), loaded.st);
    ExpireUse(loaded, now, order, who);
    ExpireHolds(loaded, now, order);
    ExpiredHistory(loaded, Expire(loaded, now, order));
    var w, g' := AlarmWork(g, now, order), AlarmStart(g, now, order);
    SameUse(Expire(loaded, now, order), w, who);
    AlarmWorkHolds(g, now, order);
    if !PollDue(w.g, w.st, now) {
      SavedWindows(w);
    }
    SameUse(w, Live(g', Stored(g')), who);
  }

  lemma PollEndUse(g: Gov, now: int, polledAt: int, r: PollResult, who: Group)
    requires Good(g) && g.hist.clock == now && polledAt in g.hist.polls
    ensures var g' := AlarmFinish(g, now, polledAt, r);
            StoredUseMs(g', who) == StoredUseMs(g, who) && (Measured(g.hist) ==> Measured(g'.hist))
  {
    hide Good, Holds, UseMs, Load, Applies, ApplyPoll, NeonClean;
    var w, g' := PollApplied(g, now, polledAt, r), AlarmFinish(g, now, polledAt, r);
    LoadHolds(g);
    LoadKeepsWindows(g);
    PollAppliedHolds(g, now, polledAt, r);
    SavedWindows(w);
    ApplyKeepsWindows(g, Load(g.row, now), now, polledAt, r);
    SameUse(Live(g, Stored(g)), Live(g', Stored(g')), who);
  }

  lemma MeasuredIsHigher(who: Group)
    ensures LimitS(false, who) <= LimitS(true, who)
  {
  }

  lemma KeptIsWithin(g: Gov, g': Gov, who: Group)
    requires Within(g, who) && Kept(g, g', who)
    ensures Within(g', who)
  {
    hide UseMs, CuSeconds, LimitS;
    if StoredUseMs(g', who) <= StoredUseMs(g, who) {
      CuSecondsMonotone(StoredUseMs(g', who), StoredUseMs(g, who));
    }
  }

  lemma TickUse(g: Gov, e: Event, who: Group)
    requires e.now >= g.hist.clock
    ensures var t := Tick(g, e.now);
            && (Within(t, who) <==> Within(g, who)) && (Fits(t, e, who) <==> Fits(g, e, who))
            && (SettlesWithCharge(t, e) <==> SettlesWithCharge(g, e))
  {
    hide BilledMs, ReservedMs, OverrunMs;
  }

  lemma SettleFits(t: Gov, e: Event, who: Group)
    requires Good(t) && t.hist.clock == e.now && SettlesWithCharge(t, e)
    ensures Within(Settle(t, e.now, e.id, e.kind, e.dbMs), who) <==> Fits(t, e, who)
  {
    hide Good, Settle, StoredUseMs, CuSeconds, SettlementOverrunMs, LimitS;
    SettleUse(t, e, who);
    CuSecondsAdds(StoredUseMs(t, who), SettlementOverrunMs(t, e, who));
  }

  /** An event keeps a group within its ceiling if and only if it is no settlement whose overrun passes what is left. */
  lemma NextIsWithinIff(g: Gov, e: Event, who: Group)
    requires Good(g) && Possible(g, e) && Within(g, who) && !who.Everyone?
    ensures Within(Next(g, e), who) <==> Fits(g, e, who)
  {
    hide Good, Within, Fits, Kept, Admission, Settle, AlarmStart, AlarmFinish, Restart, StaleOrder, SettlesWithCharge;
    var t := Tick(g, e.now);
    NonNegativeClock(g);
    TickIsGood(g, e.now);
    TickUse(g, e, who);
    if SettlesWithCharge(t, e) {
      assert e.Settlement? by { SettlesIsSettlement(t, e); }
      SettleFits(t, e, who);
    } else {
      FitsWithout(t, e, who);
      UnchargedIsWithin(t, e, who);
    }
  }

  lemma SettlesIsSettlement(g: Gov, e: Event)
    ensures SettlesWithCharge(g, e) <==> e.Settlement? && e.id in g.leases && DbTouched(e.kind, e.dbMs)
  {
  }

  lemma FitsWithout(g: Gov, e: Event, who: Group)
    requires !SettlesWithCharge(g, e)
    ensures Fits(g, e, who)
  {
  }

  /** An event that neither admits nor charges leaves no more, and no lower a ceiling. */
  lemma OthersUseNoMore(t: Gov, e: Event, who: Group)
    requires Good(t) && t.hist.clock == e.now && Possible(t, e) && !e.Request? && !SettlesWithCharge(t, e)
    ensures StoredUseMs(Next(t, e), who) <= StoredUseMs(t, who) && (Measured(t.hist) ==> Measured(Next(t, e).hist))
  {
    hide Good, StoredUseMs, Settle, AlarmStart, AlarmFinish, Restart, StaleOrder, SettlesWithCharge;
    assert Tick(t, e.now) == t;
    match e
    case Settlement(now, id, kind, dbMs) =>
      SettlesIsSettlement(t, e);
      CloseKept(t, now, id, kind, dbMs, who);
    case Alarm(now, order) => AlarmUse(t, now, order, who);
    case PollEnds(now, polledAt, r) => PollEndUse(t, now, polledAt, r, who);
    case Starts(now) => RestartIsNothing(t, now);
  }

  lemma UnchargedIsWithin(t: Gov, e: Event, who: Group)
    requires Good(t) && t.hist.clock == e.now >= 0 && Possible(t, e) && Within(t, who) && !who.Everyone?
             && !SettlesWithCharge(t, e)
    ensures Within(Next(t, e), who)
  {
    hide Good, Within, Kept, Admission, StaleOrder, SettlesWithCharge, StoredUseMs;
    assert Tick(t, e.now) == t;
    if e.Request? {
      FreshLeaseSound(e.now, e.lease);
      RequestKept(t, e.now, e.id, e.lease, e.order, who);
      KeptIsWithin(t, Next(t, e), who);
    } else {
      hide Next;
      OthersUseNoMore(t, e, who);
      LessIsWithin(t, Next(t, e), who);
    }
  }

  lemma LessIsWithin(g: Gov, g': Gov, who: Group)
    requires Within(g, who) && StoredUseMs(g', who) <= StoredUseMs(g, who) && (Measured(g.hist) ==> Measured(g'.hist))
    ensures Within(g', who)
  {
    hide StoredUseMs, LimitS, CuSeconds;
    MeasuredIsHigher(who);
    CuSecondsMonotone(StoredUseMs(g', who), StoredUseMs(g, who));
  }

  // ----- runs -----

  /** Every settlement of the run finds what its overrun needs. */
  ghost predicate SettlementsFit(neonKey: bool, run: seq<Event>, who: Group) {
    forall n :: 0 <= n < |run| ==> Fits(After(neonKey, run[..n]), run[n], who)
  }

  /** The group is within its ceiling at every moment of the run. */
  ghost predicate AlwaysWithin(neonKey: bool, run: seq<Event>, who: Group) {
    forall n :: 0 <= n <= |run| ==> Within(After(neonKey, run[..n]), who)
  }

  lemma PrefixesOfPrefix(run: seq<Event>, n: nat)
    requires n <= |run|
    ensures forall m :: 0 <= m <= n ==> run[..n][..m] == run[..m]
  {
  }

  /** On every run, a day or a network is within its ceiling at every moment if and only if every settlement's
      overrun, known before it, is at most what was left. */
  lemma {:induction false} CeilingIffSettlementsFit(neonKey: bool, run: seq<Event>, who: Group)
    requires IsRun(neonKey, run) && !who.Everyone?
    ensures AlwaysWithin(neonKey, run, who) <==> SettlementsFit(neonKey, run, who)
  {
    hide Good, Within, Fits, Next, Possible, LimitS;
    if run == [] {
      StartsWithin(neonKey, who);
    } else {
      var n := |run| - 1;
      var g := After(neonKey, run[..n]);
      PrefixesOfPrefix(run, n);
      CeilingIffSettlementsFit(neonKey, run[..n], who);
      RunsAreGood(neonKey, run[..n]);
      WithinOneMore(neonKey, run, who);
      FitsOneMore(neonKey, run, who);
      assert run[..n][..n] == run[..n];
      if AlwaysWithin(neonKey, run[..n], who) {
        assert Within(After(neonKey, run[..n][..n]), who);
        NextIsWithinIff(g, run[n], who);
      }
    }
  }

  lemma WithinOneMore(neonKey: bool, run: seq<Event>, who: Group)
    requires run != []
    ensures AlwaysWithin(neonKey, run, who)
            <==> AlwaysWithin(neonKey, run[..|run| - 1], who) && Within(After(neonKey, run), who)
  {
    hide Within, After;
    PrefixesOfPrefix(run, |run| - 1);
    var rest := run[..|run| - 1];
    assert run[..|run|] == run;
    if AlwaysWithin(neonKey, run, who) {
      forall m | 0 <= m <= |run| - 1 ensures Within(After(neonKey, rest[..m]), who) {
        assert Within(After(neonKey, run[..m]), who);
      }
      assert Within(After(neonKey, run[..|run|]), who);
    }
    if AlwaysWithin(neonKey, rest, who) && Within(After(neonKey, run), who) {
      forall m | 0 <= m <= |run| ensures Within(After(neonKey, run[..m]), who) {
        if m < |run| { assert Within(After(neonKey, rest[..m]), who); }
      }
    }
  }

  lemma FitsOneMore(neonKey: bool, run: seq<Event>, who: Group)
    requires run != []
    ensures SettlementsFit(neonKey, run, who)
            <==> SettlementsFit(neonKey, run[..|run| - 1], who)
                 && Fits(After(neonKey, run[..|run| - 1]), run[|run| - 1], who)
  {
    hide Fits, After;
    PrefixesOfPrefix(run, |run| - 1);
    var rest := run[..|run| - 1];
    if SettlementsFit(neonKey, run, who) {
      forall m | 0 <= m < |rest| ensures Fits(After(neonKey, rest[..m]), rest[m], who) {
        assert Fits(After(neonKey, run[..m]), run[m], who);
      }
    }
    if SettlementsFit(neonKey, rest, who) && Fits(After(neonKey, rest), run[|run| - 1], who) {
      forall m | 0 <= m < |run| ensures Fits(After(neonKey, run[..m]), run[m], who) {
        if m < |rest| { assert Fits(After(neonKey, rest[..m]), rest[m], who); }
      }
    }
  }

  lemma StartsWithin(neonKey: bool, who: Group)
    ensures Within(Start(neonKey), who)
  {
    assert Cover(map[], who) == {};
  }

  // ----- punctual settlements -----

  /** A settlement within the deadline that finds no expiry overdue fits. */
  lemma PunctualSettlementFits(g: Gov, e: Event, who: Group)
    requires Within(g, who) && NoneOverdue(g, e) && InTime(g, e)
    ensures Fits(g, e, who)
  {
    hide StoredUseMs, OverrunMs, AddCharged, CuSeconds, LimitS;
    if SettlesWithCharge(g, e) {
      var l := g.leases[e.id];
      var window := Window(DbStart(l.admittedAt, e.now, e.dbMs), e.now);
      PunctualChargeFits(g.leases, e.id, who, Stored(g).charged, window, e.now - LEASE_TTL_MS);
      CuSecondsMonotone(SettlementOverrunMs(g, e, who), 0);
      CuSecondsAdds(0, 0);
    }
  }

  lemma {:induction false} PunctualRunsFit(neonKey: bool, run: seq<Event>, who: Group)
    requires IsRun(neonKey, run) && NeverOverdue(neonKey, run) && AlwaysInTime(neonKey, run) && !who.Everyone?
    ensures SettlementsFit(neonKey, run, who)
  {
    hide Good, Within, Fits, Next, Possible, NoneOverdue, InTime, LimitS;
    if run != [] {
      var n := |run| - 1;
      PunctualRunsFit(neonKey, run[..n], who);
      CeilingIffSettlementsFit(neonKey, run[..n], who);
      assert run[..n][..n] == run[..n];
      assert Within(After(neonKey, run[..n][..n]), who);
      PunctualSettlementFits(After(neonKey, run[..n]), run[n], who);
      FitsOneMore(neonKey, run, who);
    }
  }
}
