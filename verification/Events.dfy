/** Every event keeps the invariant. */
module Events {
  import opened Budget
  import opened Pacing
  import opened GovernorModel
  import opened Ledger
  import opened Accounts
  import opened Reserves
  import opened Sanitizer
  import opened Invariant

  // ----- admission -----

  /** What the counts of a lease's day and network become. */
  predicate WithinCaps(g: Gov, l: Lease) {
    var day, use := IssuedDay(DayRowOf(g.days, l.day), l), IssuedUse(UseOf(g.prefixes, NetworkOf(l)), l);
    && day.admitted <= GLOBAL_DAILY_ANALYSES && day.heavy <= HEAVY_DAILY_ANALYSES && day.lookups <= GLOBAL_DAILY_LOOKUPS
    && use.count <= PREFIX_DAILY_ANALYSES && use.attempts <= PREFIX_DAILY_ADMISSIONS
    && use.lookups <= PREFIX_DAILY_LOOKUPS
  }

  /** Every group the lease joins has room for its provisional window. */
  ghost predicate HasRoom(w: Live, l: Lease) {
    forall who: Group :: !who.Everyone? && Member(l, who) ==>
      CuSeconds(BilledMs(w.g.hist.ledger, who))
          + CuSeconds(|Cover(w.g.leases, who) + Provisional(l) - Points(w.st.charged)|)
      <= LimitS(Measured(w.g.hist), who)
  }

  ghost predicate HasEgress(w: Live, l: Lease) {
    !Measured(w.g.hist) ==>
      (EgressDue(w.g.leases, w.g.hist.ledger, l.day) + l.egress) as real <= EGRESS_DAILY_CONSERVATIVE_BYTES
  }

  /** A new lease, issued at the clock's time on the purged day. */
  predicate IsNew(w: Live, id: LeaseId, l: Lease) {
    && id !in w.g.hist.issued && LeaseSound(l, w.g.hist.clock)
    && l.admittedAt == w.g.hist.clock && w.st.purgedDay == Some(l.day)
  }

  lemma IssueKeepsLeases(leases: map<LeaseId, Lease>, h: History, id: LeaseId, l: Lease)
    requires LeasesAccounted(leases, h) && id !in h.issued && LeaseSound(l, h.clock)
    ensures LeasesAccounted(leases[id := l], h.(issued := h.issued[id := l])) && id !in leases && id !in h.ended
  {
  }

  lemma IssueKeepsDays(days: map<Day, DayRow>, h: History, id: LeaseId, l: Lease)
    requires DaysAccounted(days, h) && id !in h.issued && id !in h.ended && LeaseSound(l, h.clock)
    requires l.day == DayOf(h.clock)
    requires var day := IssuedDay(DayRowOf(days, l.day), l);
             day.admitted <= GLOBAL_DAILY_ANALYSES && day.heavy <= HEAVY_DAILY_ANALYSES
                 && day.lookups <= GLOBAL_DAILY_LOOKUPS
    ensures DaysAccounted(days[l.day := IssuedDay(DayRowOf(days, l.day), l)], h.(issued := h.issued[id := l]))
  {
    var days', h' := days[l.day := IssuedDay(DayRowOf(days, l.day), l)], h.(issued := h.issued[id := l]);
    hide DayRowIs;
    forall d | d in days' || d >= DayOf(h'.clock) - DAY_RETENTION_DAYS ensures DayRowIs(DayRowOf(days', d), h', d) {
      assert DayRowIs(DayRowOf(days, d), h, d);
      IssueDayRow(days, h, id, l, d);
    }
  }

  lemma IssueKeepsNetworks(prefixes: map<Network, PrefixRow>, h: History, id: LeaseId, l: Lease)
    requires NetworksAccounted(prefixes, Some(l.day), h) && id !in h.issued && id !in h.ended && LeaseSound(l, h.clock)
    requires var use := IssuedUse(UseOf(prefixes, NetworkOf(l)), l);
             use.count <= PREFIX_DAILY_ANALYSES && use.attempts <= PREFIX_DAILY_ADMISSIONS
                 && use.lookups <= PREFIX_DAILY_LOOKUPS
    ensures NetworksAccounted(prefixes[NetworkOf(l) := IssuedUse(UseOf(prefixes, NetworkOf(l)), l)], Some(l.day),
                              h.(issued := h.issued[id := l]))
  {
    var prefixes', h' := prefixes[NetworkOf(l) := IssuedUse(UseOf(prefixes, NetworkOf(l)), l)],
        h.(issued := h.issued[id := l]);
    hide NetworkRowIs;
    forall n: Network | n.day == l.day ensures NetworkRowIs(UseOf(prefixes', n), h', n) {
      assert NetworkRowIs(UseOf(prefixes, n), h, n);
      IssueNetworkRow(prefixes, h, id, l, n);
    }
  }

  lemma IssueKeepsTables(w: Live, id: LeaseId, l: Lease)
    requires Tables(w) && IsNew(w, id, l) && WithinCaps(w.g, l)
    ensures Tables(Live(Issue(w.g, id, l), w.st))
    ensures id !in w.g.leases
  {
    hide LeasesAccounted, DaysAccounted, NetworksAccounted;
    IssueKeepsLeases(w.g.leases, w.g.hist, id, l);
    IssueKeepsDays(w.g.days, w.g.hist, id, l);
    IssueKeepsNetworks(w.g.prefixes, w.g.hist, id, l);
  }

  lemma IssueKeepsCharges(w: Live, id: LeaseId, l: Lease)
    requires Charges(w) && id !in w.g.leases && HasRoom(w, l) && HasEgress(w, l)
    ensures Charges(Live(Issue(w.g, id, l), w.st))
  {
    IssueKeepsCeilings(Measured(w.g.hist), w.g.leases, id, l, w.g.hist.ledger, w.st.charged);
    IssueKeepsEgress(Measured(w.g.hist), w.g.leases, id, l, w.g.hist.ledger);
  }

  lemma IssueKeepsRow(w: Live, id: LeaseId, l: Lease)
    requires Row(w)
    ensures Row(Live(Issue(w.g, id, l), w.st))
  {
  }

  lemma IssueHolds(w: Live, id: LeaseId, l: Lease)
    requires Holds(w) && IsNew(w, id, l) && WithinCaps(w.g, l) && HasRoom(w, l) && HasEgress(w, l)
    ensures Holds(Live(Issue(w.g, id, l), w.st))
  {
    hide Tables, Charges, Row, IsNew, WithinCaps, HasRoom, HasEgress, Issue;
    IssueKeepsTables(w, id, l);
    IssueKeepsCharges(w, id, l);
    IssueKeepsRow(w, id, l);
  }

  /** The rows of an admitted lease as the purge left them. */
  lemma TodaysRows(w: Live, l: Lease)
    requires Tables(w) && Row(w) && w.st.purgedDay == Some(l.day) && l.day == DayOf(w.g.hist.clock)
    ensures NetworkRowIs(UseOf(w.g.prefixes, NetworkOf(l)), w.g.hist, NetworkOf(l))
    ensures DayRowIs(DayRowOf(w.g.days, l.day), w.g.hist, l.day)
  {
  }

  lemma NeonIsMeasured(w: Live)
    requires Row(w)
    ensures w.st.neon.Some? <==> Measured(w.g.hist)
  {
  }

  lemma CountsPassed(w: Live, now: int, l: Lease)
    requires Tables(w) && Row(w) && w.g.hist.clock == now && w.st.purgedDay == Some(l.day) && l.day == DayOf(now)
    requires LeaseSound(l, now) && CountDenial(w.g, now, l).None?
    ensures WithinCaps(w.g, l)
  {
    hide Tables, Row, Tallied, BilledMs, BilledEgress;
    TodaysRows(w, l);
  }

  lemma RoomPassed(w: Live, now: int, l: Lease)
    requires Tables(w) && Row(w) && w.g.hist.clock == now && w.st.purgedDay == Some(l.day) && l.day == DayOf(now)
    requires l.admittedAt == now && ComputeDenial(w.g, w.st, now, l.prefix, l.egress).None?
    ensures HasRoom(w, l)
  {
    hide Tables, Row, Cover, Points, Tallied, BilledMs, EgressHeld;
    TodaysRows(w, l);
    NeonIsMeasured(w);
    CeilingIsCapped(w.g, w.st, now);
    forall who: Group | !who.Everyone? && Member(l, who)
      ensures CuSeconds(BilledMs(w.g.hist.ledger, who))
              + CuSeconds(|Cover(w.g.leases, who) + Provisional(l) - Points(w.st.charged)|)
           <= LimitS(Measured(w.g.hist), who)
    {
      match who
      case OnDay(d) => assert d == l.day;
      case OnNetwork(n) => assert n == NetworkOf(l);
    }
  }

  lemma EgressPassed(w: Live, now: int, l: Lease)
    requires Tables(w) && Row(w) && w.g.hist.clock == now && w.st.purgedDay == Some(l.day) && l.day == DayOf(now)
    requires l.admittedAt == now && ComputeDenial(w.g, w.st, now, l.prefix, l.egress).None?
    ensures HasEgress(w, l)
  {
    hide Tables, Row, Cover, Points, Tallied, BilledMs, BilledEgress, EgressHeld, UncoveredMs;
    TodaysRows(w, l);
    assert !Measured(w.g.hist) ==> CurrentNeon(w.st, now, w.g.neonKey).None? by {
      NeonIsMeasured(w);
    }
  }

  /** The purge an admission runs after writing its rows could as well run before its checks. */
  lemma PurgeIsInvisible(w: Live, now: int, l: Lease)
    requires l.day == DayOf(now)
    ensures var p := PurgeOnce(w, now);
            && CountDenial(p.g, now, l) == CountDenial(w.g, now, l)
            && ComputeDenial(p.g, p.st, now, l.prefix, l.egress) == ComputeDenial(w.g, w.st, now, l.prefix, l.egress)
  {
    hide *;
    NetworkIs(l);
    PurgeKeepsToday(w, now, NetworkOf(l));
    SameDenials(w.g, PurgeOnce(w, now).g, w.st, PurgeOnce(w, now).st, now, l);
  }

  lemma NetworkIs(l: Lease)
    ensures NetworkOf(l) == Network(l.day, l.prefix)
  {
  }

  lemma PurgeKeepsToday(w: Live, now: int, n: Network)
    requires n.day == DayOf(now)
    ensures var p := PurgeOnce(w, now);
            && UseOf(p.g.prefixes, n) == UseOf(w.g.prefixes, n)
            && DayRowOf(p.g.days, n.day) == DayRowOf(w.g.days, n.day)
            && p.g.leases == w.g.leases && p.g.neonKey == w.g.neonKey
            && p.st == w.st.(purgedDay := p.st.purgedDay)
  {
  }

  /** Denials read today's rows, the leases and the state row but for its purged day. */
  lemma SameDenials(g: Gov, g': Gov, st: StateRow, st': StateRow, now: int, l: Lease)
    requires l.day == DayOf(now)
    requires UseOf(g'.prefixes, Network(l.day, l.prefix)) == UseOf(g.prefixes, Network(l.day, l.prefix))
    requires DayRowOf(g'.days, l.day) == DayRowOf(g.days, l.day)
    requires g'.leases == g.leases && g'.neonKey == g.neonKey && st' == st.(purgedDay := st'.purgedDay)
    ensures CountDenial(g', now, l) == CountDenial(g, now, l)
    ensures ComputeDenial(g', st', now, l.prefix, l.egress) == ComputeDenial(g, st, now, l.prefix, l.egress)
  {
    hide Cover, Points, EgressHeld, CuSeconds, Deny, AllowedAt, PacingResumesAt, UseOf, DayRowOf, DayOf, Reached,
         Exceeded;
  }

  lemma PurgeThenIssue(w: Live, now: int, id: LeaseId, l: Lease)
    requires l.day == DayOf(now)
    ensures PurgeOnce(Live(Issue(w.g, id, l), w.st), now)
            == Live(Issue(PurgeOnce(w, now).g, id, l), PurgeOnce(w, now).st)
  {
    hide DayOf;
    if w.st.purgedDay != Some(DayOf(now)) {
      PurgeKeepsToday(w, now, NetworkOf(l));
      var a, b := Purge(Live(Issue(w.g, id, l), w.st), now), Issue(Purge(w, now).g, id, l);
      assert a.g.prefixes == b.prefixes;
      assert a.g.days == b.days;
    }
  }

  /** Times, the alarm and the poll error are free to change within their bounds. */
  lemma TimesHold(w: Live, st': StateRow)
    requires Holds(w)
    requires st' == w.st.(lastAdmitAt := st'.lastAdmitAt, lastPollAt := st'.lastPollAt, alarmAt := st'.alarmAt,
                          pollError := st'.pollError)
    requires 0 <= st'.lastAdmitAt <= w.g.hist.clock && 0 <= st'.lastPollAt <= w.g.hist.clock
    requires st'.alarmAt.Some? ==> st'.alarmAt.value >= 0
    ensures Holds(Live(w.g, st'))
  {
    hide Tables, DaysAccounted, LeasesAccounted, NetworksAccounted, CeilingsHold, EgressHolds, ChargesCover, Bridged;
    assert Tables(w) ==> Tables(Live(w.g, st')) by {
      TablesOf(w, Live(w.g, st'));
    }
  }

  lemma TablesOf(w: Live, w': Live)
    requires w'.g == w.g.(row := w'.g.row) && w'.st.purgedDay == w.st.purgedDay
    ensures Tables(w) ==> Tables(w')
  {
  }

  lemma SaveHolds(w: Live, row: Option<StateRow>)
    requires Holds(w)
    ensures Holds(Live(w.g.(row := row), w.st))
  {
    TablesOf(w, Live(w.g.(row := row), w.st));
    hide Tables, DaysAccounted, LeasesAccounted, NetworksAccounted, CeilingsHold, EgressHolds, ChargesCover, Bridged;
  }

  // ----- the clock, loading and saving -----

  /** The books do not read the clock, the polls or the applied polls. */
  predicate SameBooks(h: History, h': History) {
    h'.issued == h.issued && h'.ended == h.ended && h'.ledger == h.ledger
  }

  lemma SameRows(h: History, h': History)
    requires SameBooks(h, h')
    ensures forall r: DayRow, d: Day :: DayRowIs(r, h', d) <==> DayRowIs(r, h, d)
    ensures forall r: PrefixRow, n: Network :: NetworkRowIs(r, h', n) <==> NetworkRowIs(r, h, n)
  {
    forall t: Tally, who: Group ensures Tallied(h', t, who) == Tallied(h, t, who) {
      SameTally(h, h', t, who);
    }
  }

  lemma HistoryKeepsTables(w: Live, h': History)
    requires Tables(w) && SameBooks(w.g.hist, h') && w.g.hist.clock <= h'.clock
    ensures Tables(Live(w.g.(hist := h'), w.st))
  {
    hide DayRowIs, NetworkRowIs;
    SameRows(w.g.hist, h');
    DayOfIsMonotone(w.g.hist.clock, h'.clock);
  }

  lemma HistoryHolds(w: Live, h': History)
    requires Holds(w) && SameBooks(w.g.hist, h') && w.g.hist.clock <= h'.clock && (Measured(w.g.hist) ==> Measured(h'))
    requires Row(Live(w.g.(hist := h'), w.st))
    ensures Holds(Live(w.g.(hist := h'), w.st))
  {
    hide Tables, Row, CeilingsHold, EgressHolds, ChargesCover;
    HistoryKeepsTables(w, h');
    PollKeepsCeilings(Measured(w.g.hist), Measured(h'), w.g.leases, w.g.hist.ledger, w.st.charged);
  }

  lemma SameBridge(neon: Option<NeonUsage>, h: History, h': History)
    requires h'.ledger == h.ledger && h'.applied == h.applied
    ensures Bridged(neon, h') <==> Bridged(neon, h)
  {
  }

  function Stored(g: Gov): StateRow {
    if g.row.Some? then g.row.value else INITIAL_STATE
  }

  /** The invariant between events. */
  ghost predicate Good(g: Gov) {
    Holds(Live(g, Stored(g)))
  }

  lemma TickIsGood(g: Gov, now: int)
    requires Good(g) && g.hist.clock <= now
    ensures Good(Tick(g, now))
  {
    hide Tables, Charges, Bridged, Sound;
    var w := Live(g, Stored(g));
    SoundLater(w.st, g.hist.clock, now);
    SameBridge(w.st.neon, g.hist, g.hist.(clock := now));
    HistoryHolds(w, g.hist.(clock := now));
  }

  /** A load at the clock's time gives the stored row, but for a long error text. */
  lemma LoadHolds(g: Gov)
    requires Good(g)
    ensures var st := Load(g.row, g.hist.clock);
            Holds(Live(g, st)) && st == Stored(g).(pollError := CutError(Stored(g).pollError))
  {
    hide Tables, Charges, PollsSound, Bridged;
    var w := Live(g, Stored(g));
    if g.row.Some? {
      LoadSound(g.row.value, g.hist.clock);
    }
    TimesHold(w, Load(g.row, g.hist.clock));
  }

  lemma SaveIsGood(w: Live)
    requires Holds(w)
    ensures Good(Save(w.g, w.st))
  {
    hide Tables, Charges, Row;
    SaveHolds(w, Some(w.st));
  }

  // ----- the events -----

  lemma ScheduleIsGood(w: Live, now: int)
    requires Holds(w) && w.g.hist.clock == now
    ensures Good(Save(w.g, Schedule(w, now)))
  {
    hide Tables, Charges, PollsSound, Bridged;
    var st' := Schedule(w, now);
    assert st' == w.st.(alarmAt := st'.alarmAt);
    assert st'.alarmAt.Some? ==> st'.alarmAt.value >= 0 by {
      MidnightIsNext(now);
    }
    TimesHold(w, st');
    SaveIsGood(Live(w.g, st'));
  }

  lemma FreshLeaseSound(now: int, l: Lease)
    requires now >= 0
    requires l == LookupLease(now, l.prefix) || exists heavy :: l == AnalysisLease(now, l.prefix, heavy)
    ensures LeaseSound(l, now) && l.admittedAt == now && l.day == DayOf(now)
  {
  }

  lemma RecentDays(w: Live, now: int)
    requires Holds(w) && NoneStale(w.g.leases, now)
    ensures forall id :: id in w.g.leases ==> w.g.leases[id].day >= DayOf(now) - DAY_RETENTION_DAYS
  {
    forall id | id in w.g.leases ensures w.g.leases[id].day >= DayOf(now) - DAY_RETENTION_DAYS {
      LiveLeaseBounds(w, id);
    }
  }

  lemma AdmitIsGood(w: Live, now: int, id: LeaseId, l: Lease)
    requires Holds(w) && w.g.hist.clock == now >= 0 && NoneStale(w.g.leases, now)
    requires id !in w.g.hist.issued && LeaseSound(l, now) && l.admittedAt == now && l.day == DayOf(now)
    requires CountDenial(w.g, now, l).None? && ComputeDenial(w.g, w.st, now, l.prefix, l.egress).None?
    ensures Good(Admit(w, now, id, l))
  {
    hide Tables, Charges, Row, LeaseSound, CountDenial, ComputeDenial, Issue, PurgeOnce, Schedule, HasRoom, HasEgress,
         WithinCaps;
    RecentDays(w, now);
    PurgeOnceHolds(w, now);
    PurgeIsInvisible(w, now, l);
    PurgeSame(w, now);
    var p := PurgeOnce(w, now);
    CountsPassed(p, now, l);
    RoomPassed(p, now, l);
    EgressPassed(p, now, l);
    IssueHolds(p, id, l);
    AdmitTail(w, now, id, l);
  }

  lemma PurgeSame(w: Live, now: int)
    ensures PurgeOnce(w, now).g.hist == w.g.hist && PurgeOnce(w, now).g.leases == w.g.leases
  {
  }

  lemma AdmitTail(w: Live, now: int, id: LeaseId, l: Lease)
    requires w.g.hist.clock == now >= 0 && l.day == DayOf(now)
    requires Holds(Live(Issue(PurgeOnce(w, now).g, id, l), PurgeOnce(w, now).st))
    ensures Good(Admit(w, now, id, l))
  {
    hide Tables, Charges, PollsSound, Bridged;
    var p := Live(Issue(PurgeOnce(w, now).g, id, l), PurgeOnce(w, now).st);
    var st := if l.lookup == 1 then w.st else w.st.(lastAdmitAt := now);
    PurgeThenIssue(Live(w.g, st), now, id, l);
    var p' := PurgeOnce(Live(Issue(w.g, id, l), st), now);
    assert p' == Live(p.g, p'.st);
    TimesHold(p, p'.st);
    ScheduleIsGood(p', now);
  }

  lemma SameCountDenial(w: Live, w': Live, now: int, l: Lease)
    requires OnlyExpired(w, w')
    ensures CountDenial(w'.g, now, l) == CountDenial(w.g, now, l)
  {
    assert SameDayCounts(DayRowOf(w.g.days, l.day), DayRowOf(w'.g.days, l.day));
    assert SameUseCounts(UseOf(w.g.prefixes, NetworkOf(l)), UseOf(w'.g.prefixes, NetworkOf(l)));
  }

  /** Expiry inside a request: the governor with its state in memory, and as it is left if denied. */
  lemma ExpireForRequest(g: Gov, now: int, order: seq<LeaseId>)
    requires Good(g) && g.hist.clock == now && StaleOrder(g.leases, now, order)
    ensures var w := Expire(Live(g, Load(g.row, now)), now, order);
            var g1 := if order == [] then g else Save(w.g, w.st);
            && Good(g1) && Holds(Live(g1, w.st)) && NoneStale(w.g.leases, now)
            && OnlyExpired(Live(g, Load(g.row, now)), w) && g1 == w.g.(row := g1.row)
  {
    hide Tables, Charges, Row, OnlyExpired, NoneStale, StaleOrder, ExpireEach;
    LoadHolds(g);
    var loaded := Live(g, Load(g.row, now));
    ExpireHolds(loaded, now, order);
    var w := Expire(loaded, now, order);
    if order != [] {
      SaveIsGood(w);
      SaveHolds(w, Some(w.st));
    }
  }

  lemma RequestIsGood(g: Gov, now: int, id: LeaseId, l: Lease, order: seq<LeaseId>)
    requires Good(g) && g.hist.clock == now >= 0 && StaleOrder(g.leases, now, order) && id !in g.hist.issued
    requires LeaseSound(l, now) && l.admittedAt == now && l.day == DayOf(now)
    ensures Good(Admission(g, now, id, l, order).g)
  {
    hide Good, Tables, Charges, Row, LeaseSound, CountDenial, ComputeDenial, OnlyExpired, NoneStale, StaleOrder,
         Expire, Admit, Load;
    ExpireForRequest(g, now, order);
    var loaded := Live(g, Load(g.row, now));
    var w := Expire(loaded, now, order);
    SameCountDenial(loaded, w, now, l);
    ExpiredHistory(loaded, w);
    var g1 := if order == [] then g else Save(w.g, w.st);
    if CountDenial(g, now, l).None? && ComputeDenial(g1, w.st, now, l.prefix, l.egress).None? {
      SameCountDenialSaved(w.g, g1, now, l);
      AdmitIsGood(Live(g1, w.st), now, id, l);
    }
  }

  lemma ExpiredHistory(w: Live, w': Live)
    requires OnlyExpired(w, w')
    ensures w'.g.hist.issued == w.g.hist.issued && w'.g.hist.clock == w.g.hist.clock
            && w'.g.hist.applied == w.g.hist.applied
  {
  }

  lemma SameCountDenialSaved(g: Gov, g1: Gov, now: int, l: Lease)
    requires g1 == g.(row := g1.row)
    ensures CountDenial(g1, now, l) == CountDenial(g, now, l)
  {
  }

  lemma SettleChargeIs(w: Live, id: LeaseId, e: Ending, start: int, end: int, keepAfter: int)
    requires id in w.g.leases
    ensures var c := ChargeFor(Live(Close(w.g, id, e), w.st), id, w.g.leases[id], start, end, keepAfter);
            IsCharge(w, c, keepAfter) && c.id == id && c.lease == w.g.leases[id] && c.window == Window(start, end)
  {
    hide AddedMs, LateMs, LostMs, AddCharged, Cover;
  }

  lemma SettleWithCharge(g: Gov, now: int, id: LeaseId, kind: SettleKind, dbMs: Option<int>)
    requires Good(g) && g.hist.clock == now && id in g.leases && DbTouched(kind, dbMs)
    ensures Good(Settle(g, now, id, kind, dbMs))
  {
    hide Good, Tables, Charges, Row, ChargeFor, Load, IsCharge, Close, Bill, Save;
    var l, e, st := g.leases[id], Settled(kind, dbMs), Load(g.row, now);
    var start, keepAfter := DbStart(l.admittedAt, now, dbMs), now - LEASE_TTL_MS;
    LoadHolds(g);
    var w := Live(g, st);
    SettleChargeIs(w, id, e, start, now, keepAfter);
    var c := ChargeFor(Live(Close(g, id, e), st), id, l, start, now, keepAfter);
    IsChargeId(w, c, keepAfter);
    EndAndBillHolds(w, e, c, keepAfter);
    SaveIsGood(EndAndBill(w, e, c, keepAfter));
  }

  lemma IsChargeId(w: Live, c: Charge, keepAfter: int)
    requires IsCharge(w, c, keepAfter)
    ensures c.id in w.g.leases && c.lease == w.g.leases[c.id]
  {
  }

  lemma SettleIsGood(g: Gov, now: int, id: LeaseId, kind: SettleKind, dbMs: Option<int>)
    requires Good(g) && g.hist.clock == now
    ensures Good(Settle(g, now, id, kind, dbMs))
  {
    if id in g.leases {
      if DbTouched(kind, dbMs) {
        SettleWithCharge(g, now, id, kind, dbMs);
      } else {
        CloseHolds(Live(g, Stored(g)), id, Settled(kind, dbMs));
      }
    }
  }

  /** An alarm's work before it decides to poll. */
  lemma AlarmWorkHolds(g: Gov, now: int, order: seq<LeaseId>)
    requires Good(g) && g.hist.clock == now && StaleOrder(g.leases, now, order)
    ensures var w := AlarmWork(g, now, order);
            && Holds(w) && w.st.purgedDay == Some(DayOf(now)) && w.st.lastAdmitAt == Load(g.row, now).lastAdmitAt
            && w.g.hist.clock == now && w.g.hist.polls == g.hist.polls && NoneStale(w.g.leases, now)
  {
    hide Tables, Charges, Row, StaleOrder, ExpireEach, NoneStale, PurgeOnce;
    LoadHolds(g);
    var st := Load(g.row, now).(alarmAt := None);
    RowTimes(Live(g, Load(g.row, now)));
    TimesHold(Live(g, Load(g.row, now)), st);
    ExpireHolds(Live(g, st), now, order);
    var w := Expire(Live(g, st), now, order);
    RecentDays(w, now);
    PurgeOnceHolds(w, now);
    PurgeSame(w, now);
    PurgeSameTimes(w, now);
  }

  lemma RowTimes(w: Live)
    requires Row(w)
    ensures 0 <= w.st.lastAdmitAt <= w.g.hist.clock && 0 <= w.st.lastPollAt <= w.g.hist.clock && w.g.hist.clock >= 0
  {
  }

  lemma PurgeSameTimes(w: Live, now: int)
    ensures PurgeOnce(w, now).st.lastAdmitAt == w.st.lastAdmitAt
  {
  }

  /** Saving, loading again and scheduling the next alarm. */
  lemma SaveAndSchedule(w: Live, now: int)
    requires Holds(w) && w.g.hist.clock == now
    ensures var saved := Save(w.g, w.st);
            Good(saved) && Good(Save(saved, Schedule(Live(saved, Load(saved.row, now)), now)))
  {
    hide Tables, Charges, Row, Schedule, Load;
    SaveIsGood(w);
    LoadHolds(Save(w.g, w.st));
    ScheduleIsGood(Live(Save(w.g, w.st), Load(Some(w.st), now)), now);
  }

  lemma PollsNeedAKey(g: Gov, st: StateRow, now: int)
    requires PollDue(g, st, now)
    ensures g.neonKey
  {
  }

  lemma PollStarts(w: Live, now: int)
    requires Holds(w) && w.g.neonKey && w.g.hist.clock == now && w.st.purgedDay == Some(DayOf(now))
    ensures Holds(Live(w.g.(hist := w.g.hist.(polls := w.g.hist.polls + {now})), w.st.(lastPollAt := now)))
  {
    hide Tables, Charges, Bridged;
    TimesHold(w, w.st.(lastPollAt := now));
    SameBridge(w.st.neon, w.g.hist, w.g.hist.(polls := w.g.hist.polls + {now}));
    HistoryHolds(Live(w.g, w.st.(lastPollAt := now)), w.g.hist.(polls := w.g.hist.polls + {now}));
  }

  lemma AlarmIsGood(g: Gov, now: int, order: seq<LeaseId>)
    requires Good(g) && g.hist.clock == now && StaleOrder(g.leases, now, order)
    ensures Good(AlarmStart(g, now, order))
  {
    hide Good, Holds, StaleOrder, AlarmWork, Schedule, Load, PollDue, NoneStale;
    AlarmWorkHolds(g, now, order);
    var w := AlarmWork(g, now, order);
    if PollDue(w.g, w.st, now) {
      assert w.g.neonKey by { PollsNeedAKey(w.g, w.st, now); }
      PollStarts(w, now);
      SaveIsGood(Live(w.g.(hist := w.g.hist.(polls := w.g.hist.polls + {now})), w.st.(lastPollAt := now)));
    } else {
      SaveAndSchedule(w, now);
    }
  }

  lemma SanitizedNeon(n: NeonUsage, now: int, cuTotalS: real, egressTotal: int)
    ensures var s := SanitizeNeon(Is(EncodeNeon(n)), now, cuTotalS, egressTotal);
            s.Some? ==> s.value == n && NeonClean(n, now, cuTotalS, egressTotal)
  {
  }

  /** Applying a poll moves the bridge: its bases become the totals at this poll and the one before. */
  lemma PollKeepsBridge(w: Live, now: int, polledAt: int, r: PollResult)
    requires TotalsAccounted(w.st, w.g.hist) && Bridged(w.st.neon, w.g.hist)
    ensures var h' := if Applies(w.g, w.st, now, polledAt, r)
            then w.g.hist.(applied := w.g.hist.applied + [|w.g.hist.ledger|]) else w.g.hist;
            Bridged(ApplyPoll(w.g, w.st, now, polledAt, r).neon, h')
  {
    if Applies(w.g, w.st, now, polledAt, r) {
      SanitizedNeon(PolledUsage(w.g, w.st, polledAt, r), now, w.st.cuTotalS, w.st.egressTotal);
      assert w.g.hist.ledger[..|w.g.hist.ledger|] == w.g.hist.ledger;
    }
  }

  lemma PollKeepsSound(w: Live, now: int, polledAt: int, r: PollResult)
    requires Sound(w.st, now)
    ensures Sound(ApplyPoll(w.g, w.st, now, polledAt, r), now)
    ensures var st' := ApplyPoll(w.g, w.st, now, polledAt, r);
            st' == w.st.(pollError := st'.pollError, neon := st'.neon)
  {
    if r.Usage? {
      SanitizedNeon(PolledUsage(w.g, w.st, polledAt, r), now, w.st.cuTotalS, w.st.egressTotal);
    }
  }

  /** What the second step of the alarm leaves before it schedules. */
  function PollApplied(g: Gov, now: int, polledAt: int, r: PollResult): Live {
    var loaded := Load(g.row, now);
    var applied := if Applies(g, loaded, now, polledAt, r) then g.hist.applied + [|g.hist.ledger|] else g.hist.applied;
    Live(g.(hist := g.hist.(polls := g.hist.polls - {polledAt}, applied := applied)),
         ApplyPoll(g, loaded, now, polledAt, r))
  }

  lemma PollAppliedHolds(g: Gov, now: int, polledAt: int, r: PollResult)
    requires Good(g) && g.hist.clock == now && polledAt in g.hist.polls
    ensures Holds(PollApplied(g, now, polledAt, r))
  {
    hide Tables, CeilingsHold, EgressHolds, ChargesCover, Load, Applies, ApplyPoll, Sound, Bridged;
    LoadHolds(g);
    var w, w' := Live(g, Load(g.row, now)), PollApplied(g, now, polledAt, r);
    PollKeepsBridge(w, now, polledAt, r);
    PollKeepsSound(w, now, polledAt, r);
    SameBridge(w'.st.neon, w'.g.hist.(polls := g.hist.polls), w'.g.hist);
    HistoryKeepsTables(w, w'.g.hist);
    SameTables(Live(w'.g, w.st), w');
    PollKeepsCeilings(Measured(w.g.hist), Measured(w'.g.hist), w.g.leases, w.g.hist.ledger, w.st.charged);
  }

  lemma SameTables(w: Live, w': Live)
    requires w'.g == w.g && w'.st.purgedDay == w.st.purgedDay
    ensures Tables(w) <==> Tables(w')
  {
  }

  lemma PollEndIsGood(g: Gov, now: int, polledAt: int, r: PollResult)
    requires Good(g) && g.hist.clock == now && polledAt in g.hist.polls
    ensures Good(AlarmFinish(g, now, polledAt, r))
  {
    hide Good, Holds, Load, Schedule, Applies, ApplyPoll;
    PollAppliedHolds(g, now, polledAt, r);
    SaveAndSchedule(PollApplied(g, now, polledAt, r), now);
  }

  /** A restart deletes nothing. */
  lemma RestartIsNothing(g: Gov, now: int)
    requires Good(g) && g.hist.clock == now
    ensures Restart(g, now) == g
  {
    hide Charges, DayRowIs, NetworkRowIs, WindowsClean;
    forall id | id in g.leases ensures LeasePossible(g.leases[id], now) {
      LiveLeaseSound(Live(g, Stored(g)), id);
    }
    assert Restart(g, now).days == g.days;
    assert Restart(g, now).prefixes == g.prefixes;
    assert Restart(g, now).leases == g.leases;
  }

  lemma StartIsGood(neonKey: bool)
    ensures Good(Start(neonKey))
  {
    StartTables(neonKey);
    StartCharges(neonKey);
    hide Tables, Charges;
  }

  lemma StartTables(neonKey: bool)
    ensures Tables(Live(Start(neonKey), INITIAL_STATE))
  {
    var h := Start(neonKey).hist;
    assert forall t: Tally, who: Group :: TallySet(h, t, who) == {};
  }

  lemma StartCharges(neonKey: bool)
    ensures Charges(Live(Start(neonKey), INITIAL_STATE))
  {
    assert forall who: Group :: Cover(map[], who) == {};
    assert forall who: Group :: EgressHeld(map[], who) == 0;
  }

  /** Every possible event keeps the invariant. */
  lemma NextIsGood(g: Gov, e: Event)
    requires Good(g) && Possible(g, e)
    ensures Good(Next(g, e))
  {
    var t := Tick(g, e.now);
    NonNegativeClock(g);
    hide Good, Admission, Settle, AlarmStart, AlarmFinish, Restart;
    TickIsGood(g, e.now);
    match e
    case Request(now, id, l, order) =>
      FreshLeaseSound(now, l);
      RequestIsGood(t, now, id, l, order);
    case Settlement(now, id, kind, dbMs) => SettleIsGood(t, now, id, kind, dbMs);
    case Alarm(now, order) => AlarmIsGood(t, now, order);
    case PollEnds(now, polledAt, r) => PollEndIsGood(t, now, polledAt, r);
    case Starts(now) => RestartIsNothing(t, now);
  }

  lemma NonNegativeClock(g: Gov)
    requires Good(g)
    ensures g.hist.clock >= 0
  {
  }

  /** The invariant holds after every run. */
  lemma {:induction false} RunsAreGood(neonKey: bool, run: seq<Event>)
    requires IsRun(neonKey, run)
    ensures Good(After(neonKey, run))
  {
    hide Good, Next, Possible;
    if run == [] {
      StartIsGood(neonKey);
    } else {
      var n := |run| - 1;
      RunsAreGood(neonKey, run[..n]);
      NextIsGood(After(neonKey, run[..n]), run[n]);
    }
  }
}
