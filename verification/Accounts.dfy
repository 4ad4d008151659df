/** Every lease is accounted for: the tables' counts and charges are tallies of the history. */
module Accounts {
  import opened Budget
  import opened Pacing
  import opened GovernorModel
  import opened Ledger

  // ----- tallies of issued leases -----

  datatype Tally = Analyses | Heavies | Lookups | Refunds | HeavyRefunds | PrefixRefunds

  predicate Counts(l: Lease, e: Option<Ending>, t: Tally) {
    match t
    case Analyses => l.lookup != 1
    case Heavies => l.lookup != 1 && l.heavy == 1
    case Lookups => l.lookup == 1
    case Refunds => e.Some? && RefundsCounts(l, e.value)
    case HeavyRefunds => e.Some? && RefundsCounts(l, e.value) && l.heavy == 1
    case PrefixRefunds => e.Some? && RefundsPrefix(l, e.value)
  }

  function EndingOf(ended: map<LeaseId, Ending>, id: LeaseId): Option<Ending> {
    if id in ended then Some(ended[id]) else None
  }

  predicate InTally(h: History, id: LeaseId, t: Tally, who: Group)
    requires id in h.issued
  {
    Member(h.issued[id], who) && Counts(h.issued[id], EndingOf(h.ended, id), t)
  }

  ghost function TallySet(h: History, t: Tally, who: Group): set<LeaseId> {
    set id | id in h.issued && InTally(h, id, t, who)
  }

  ghost function Tallied(h: History, t: Tally, who: Group): nat {
    |TallySet(h, t, who)|
  }

  /** Histories that agree on every lease but one differ in a tally by that lease at most. */
  lemma TallySetStep(h: History, h': History, id: LeaseId, t: Tally, who: Group)
    requires h'.issued.Keys == h.issued.Keys + {id}
    requires forall other :: other in h.issued && other != id ==>
             (InTally(h', other, t, who) <==> InTally(h, other, t, who))
    requires id !in TallySet(h, t, who)
    ensures TallySet(h', t, who) == TallySet(h, t, who) + if InTally(h', id, t, who) then {id} else {}
  {
    forall other ensures other in TallySet(h', t, who)
                    <==> other in TallySet(h, t, who) || (other == id && InTally(h', id, t, who)) {
      if other != id {
        assert other in h'.issued <==> other in h.issued;
      }
    }
  }

  lemma OneMember(before: set<LeaseId>, after: set<LeaseId>, id: LeaseId)
    requires after == before + {id} && id !in before
    ensures |after| == |before| + 1
  {
  }

  lemma TallyStep(h: History, h': History, id: LeaseId, t: Tally, who: Group)
    requires h'.issued.Keys == h.issued.Keys + {id}
    requires forall other :: other in h.issued && other != id ==>
             (InTally(h', other, t, who) <==> InTally(h, other, t, who))
    requires id !in TallySet(h, t, who)
    ensures Tallied(h', t, who) == Tallied(h, t, who) + if InTally(h', id, t, who) then 1 else 0
  {
    var before, after := TallySet(h, t, who), TallySet(h', t, who);
    TallySetStep(h, h', id, t, who);
    if InTally(h', id, t, who) {
      OneMember(before, after, id);
    } else {
      assert after == before;
    }
  }

  lemma SameTally(h: History, h': History, t: Tally, who: Group)
    requires h'.issued.Keys == h.issued.Keys
    requires forall id :: id in h.issued ==> (InTally(h', id, t, who) <==> InTally(h, id, t, who))
    ensures Tallied(h', t, who) == Tallied(h, t, who)
  {
    assert TallySet(h', t, who) == TallySet(h, t, who);
  }

  lemma IssueTally(h: History, id: LeaseId, l: Lease, t: Tally, who: Group)
    requires id !in h.issued && id !in h.ended
    ensures Tallied(h.(issued := h.issued[id := l]), t, who)
         == Tallied(h, t, who) + if Member(l, who) && Counts(l, None, t) then 1 else 0
  {
    TallyStep(h, h.(issued := h.issued[id := l]), id, t, who);
  }

  predicate IsRefund(t: Tally) { t.Refunds? || t.HeavyRefunds? || t.PrefixRefunds? }

  lemma EndTally(h: History, id: LeaseId, e: Ending, t: Tally, who: Group)
    requires id in h.issued && id !in h.ended
    ensures Tallied(h.(ended := h.ended[id := e]), t, who)
         == Tallied(h, t, who)
            + if IsRefund(t) && Member(h.issued[id], who) && Counts(h.issued[id], Some(e), t) then 1 else 0
  {
    var h' := h.(ended := h.ended[id := e]);
    if IsRefund(t) {
      TallyStep(h, h', id, t, who);
    } else {
      SameTally(h, h', t, who);
    }
  }

  lemma SubTally(h: History, refunds: Tally, of: Tally, who: Group)
    requires forall l: Lease, e: Option<Ending> :: Counts(l, e, refunds) ==> Counts(l, e, of)
    ensures Tallied(h, refunds, who) <= Tallied(h, of, who)
  {
    SubsetSize(TallySet(h, refunds, who), TallySet(h, of, who));
  }

  /** A live lease that counts has not been refunded: the refunds are fewer by one at least. */
  lemma NotYetRefunded(h: History, id: LeaseId, refunds: Tally, of: Tally, who: Group)
    requires forall l: Lease, e: Option<Ending> :: Counts(l, e, refunds) ==> Counts(l, e, of)
    requires id in h.issued && id !in h.ended && Member(h.issued[id], who)
    requires Counts(h.issued[id], None, of) && !Counts(h.issued[id], None, refunds)
    ensures Tallied(h, refunds, who) + 1 <= Tallied(h, of, who)
  {
    SubsetSize(TallySet(h, refunds, who) + {id}, TallySet(h, of, who));
  }

  // ----- leases and the ledger -----

  predicate LeaseSound(l: Lease, clock: int) {
    && 0 <= l.admittedAt <= clock && l.day == DayOf(l.admittedAt)
    && (l == LookupLease(l.admittedAt, l.prefix)
        || l == AnalysisLease(l.admittedAt, l.prefix, true) || l == AnalysisLease(l.admittedAt, l.prefix, false))
  }

  predicate MustCharge(e: Ending) {
    match e
    case Expired => true
    case Settled(kind, dbMs) => DbTouched(kind, dbMs)
  }

  ghost predicate ChargedIn(ledger: seq<Charge>, id: LeaseId) {
    exists i :: 0 <= i < |ledger| && ledger[i].id == id
  }

  /** Every lease ever issued is live or has ended, never both; a lease is charged only if its ending
      calls for it, and then once. */
  ghost predicate LeasesAccounted(leases: map<LeaseId, Lease>, h: History) {
    && h.issued.Keys == leases.Keys + h.ended.Keys
    && leases.Keys !! h.ended.Keys
    && (forall id :: id in leases ==> leases[id] == h.issued[id])
    && (forall id :: id in h.issued ==> LeaseSound(h.issued[id], h.clock))
    && (forall i :: 0 <= i < |h.ledger| ==>
          h.ledger[i].id in h.ended && h.ledger[i].lease == h.issued[h.ledger[i].id]
              && MustCharge(h.ended[h.ledger[i].id]))
    && (forall i, j :: 0 <= i < j < |h.ledger| ==> h.ledger[i].id != h.ledger[j].id)
    && (forall id :: id in h.ended && MustCharge(h.ended[id]) ==> ChargedIn(h.ledger, id))
  }

  // ----- day rows -----

  ghost predicate DayRowIs(r: DayRow, h: History, d: Day) {
    && r.admitted == Tallied(h, Analyses, OnDay(d)) - Tallied(h, Refunds, OnDay(d))
    && r.heavy == Tallied(h, Heavies, OnDay(d)) - Tallied(h, HeavyRefunds, OnDay(d))
    && r.refunded == Tallied(h, Refunds, OnDay(d))
    && r.lookups == Tallied(h, Lookups, OnDay(d))
    && r.cuS == CuSeconds(BilledMs(h.ledger, OnDay(d)))
    && r.egress == BilledEgress(h.ledger, OnDay(d))
    && r.admitted <= GLOBAL_DAILY_ANALYSES && r.heavy <= HEAVY_DAILY_ANALYSES && r.lookups <= GLOBAL_DAILY_LOOKUPS
  }

  /** A day the purge may not have deleted yet has its exact row, zero when there is none. */
  ghost predicate DaysAccounted(days: map<Day, DayRow>, h: History) {
    && (forall d :: d in days || d >= DayOf(h.clock) - DAY_RETENTION_DAYS ==> DayRowIs(DayRowOf(days, d), h, d))
    && (forall d :: d in days ==> d <= DayOf(h.clock))
  }

  ghost predicate LiveDaysKept(days: map<Day, DayRow>, leases: map<LeaseId, Lease>) {
    forall id :: id in leases ==> leases[id].day in days
  }

  lemma CloseDayRow(days: map<Day, DayRow>, h: History, id: LeaseId, e: Ending, d: Day)
    requires id in h.issued && id !in h.ended && LeaseSound(h.issued[id], h.clock)
    requires DayRowIs(DayRowOf(days, d), h, d)
    requires h.issued[id].day in days
    ensures var l := h.issued[id];
            DayRowIs(DayRowOf(if RefundsCounts(l, e) then RefundDay(days, l) else days, d),
                     h.(ended := h.ended[id := e]), d)
  {
    var l := h.issued[id];
    EndTally(h, id, e, Analyses, OnDay(d));
    EndTally(h, id, e, Heavies, OnDay(d));
    EndTally(h, id, e, Lookups, OnDay(d));
    EndTally(h, id, e, Refunds, OnDay(d));
    EndTally(h, id, e, HeavyRefunds, OnDay(d));
    if RefundsCounts(l, e) && l.day == d {
      NotYetRefunded(h, id, Refunds, Analyses, OnDay(d));
      if l.heavy == 1 {
        NotYetRefunded(h, id, HeavyRefunds, Heavies, OnDay(d));
      } else {
        HeavyRefundsAreFewer(h, OnDay(d));
      }
    }
  }

  lemma HeavyRefundsAreFewer(h: History, who: Group)
    ensures Tallied(h, HeavyRefunds, who) <= Tallied(h, Heavies, who)
  {
    SubTally(h, HeavyRefunds, Heavies, who);
  }

  lemma CloseKeepsDays(days: map<Day, DayRow>, h: History, id: LeaseId, e: Ending)
    requires id in h.issued && id !in h.ended && LeaseSound(h.issued[id], h.clock)
    requires DaysAccounted(days, h) && h.issued[id].day in days
    ensures var l := h.issued[id];
            DaysAccounted(if RefundsCounts(l, e) then RefundDay(days, l) else days, h.(ended := h.ended[id := e]))
  {
    var l := h.issued[id];
    var days' := if RefundsCounts(l, e) then RefundDay(days, l) else days;
    var h' := h.(ended := h.ended[id := e]);
    assert days'.Keys == days.Keys;
    forall d | d in days' || d >= DayOf(h'.clock) - DAY_RETENTION_DAYS ensures DayRowIs(DayRowOf(days', d), h', d) {
      CloseDayRow(days, h, id, e, d);
    }
  }

  lemma BillKeepsDays(days: map<Day, DayRow>, h: History, c: Charge)
    requires DaysAccounted(days, h) && c.lease.day in days
    ensures DaysAccounted(ChargeDay(days, c.lease.day, CuSeconds(c.addedMs), c.lease.egress),
                          h.(ledger := h.ledger + [c]))
  {
    var days' := ChargeDay(days, c.lease.day, CuSeconds(c.addedMs), c.lease.egress);
    var h' := h.(ledger := h.ledger + [c]);
    assert days'.Keys == days.Keys;
    forall d | d in days' || d >= DayOf(h'.clock) - DAY_RETENTION_DAYS ensures DayRowIs(DayRowOf(days', d), h', d) {
      BillDayRow(days, h, c, d);
    }
  }

  lemma SameTallies(h: History, ledger: seq<Charge>, t: Tally, who: Group)
    ensures Tallied(h.(ledger := ledger), t, who) == Tallied(h, t, who)
  {
    assert TallySet(h.(ledger := ledger), t, who) == TallySet(h, t, who);
  }

  lemma BillDayRow(days: map<Day, DayRow>, h: History, c: Charge, d: Day)
    requires DayRowIs(DayRowOf(days, d), h, d)
    ensures DayRowIs(DayRowOf(ChargeDay(days, c.lease.day, CuSeconds(c.addedMs), c.lease.egress), d),
                     h.(ledger := h.ledger + [c]), d)
  {
    LedgerSnoc(h.ledger, c, OnDay(d));
    CuSecondsAdds(BilledMs(h.ledger, OnDay(d)), c.addedMs);
    SameTallies(h, h.ledger + [c], Analyses, OnDay(d));
    SameTallies(h, h.ledger + [c], Heavies, OnDay(d));
    SameTallies(h, h.ledger + [c], Lookups, OnDay(d));
    SameTallies(h, h.ledger + [c], Refunds, OnDay(d));
    SameTallies(h, h.ledger + [c], HeavyRefunds, OnDay(d));
  }

  /** The counts a new lease adds to its day. */
  function IssuedDay(r: DayRow, l: Lease): DayRow {
    if l.lookup == 1 then r.(lookups := r.lookups + 1) else r.(admitted := r.admitted + 1, heavy := r.heavy + l.heavy)
  }

  lemma IssueDayRow(days: map<Day, DayRow>, h: History, id: LeaseId, l: Lease, d: Day)
    requires id !in h.issued && id !in h.ended && LeaseSound(l, h.clock)
    requires DayRowIs(DayRowOf(days, d), h, d)
    requires l.day == d ==> IssuedDay(DayRowOf(days, d), l).admitted <= GLOBAL_DAILY_ANALYSES
                            && IssuedDay(DayRowOf(days, d), l).heavy <= HEAVY_DAILY_ANALYSES
                            && IssuedDay(DayRowOf(days, d), l).lookups <= GLOBAL_DAILY_LOOKUPS
    ensures DayRowIs(DayRowOf(days[l.day := IssuedDay(DayRowOf(days, l.day), l)], d), h.(issued := h.issued[id := l]),
                     d)
  {
    IssueTally(h, id, l, Analyses, OnDay(d));
    IssueTally(h, id, l, Heavies, OnDay(d));
    IssueTally(h, id, l, Lookups, OnDay(d));
    IssueTally(h, id, l, Refunds, OnDay(d));
    IssueTally(h, id, l, HeavyRefunds, OnDay(d));
  }

  // ----- network rows -----

  ghost predicate NetworkRowIs(r: PrefixRow, h: History, n: Network) {
    && r.count == Tallied(h, Analyses, OnNetwork(n)) - Tallied(h, PrefixRefunds, OnNetwork(n))
    && r.attempts == Tallied(h, Analyses, OnNetwork(n))
    && r.lookups == Tallied(h, Lookups, OnNetwork(n))
    && r.cuS == CuSeconds(BilledMs(h.ledger, OnNetwork(n)))
    && r.count <= PREFIX_DAILY_ANALYSES && r.attempts <= PREFIX_DAILY_ADMISSIONS && r.lookups <= PREFIX_DAILY_LOOKUPS
  }

  /** The rows are those of the networks admitted on the purged day, each exact; no lease is of a later day. */
  ghost predicate NetworksAccounted(prefixes: map<Network, PrefixRow>, purgedDay: Option<Day>, h: History) {
    match purgedDay
    case None => prefixes == map[] && h.issued == map[]
    case Some(day) =>
      && (forall n :: n in prefixes ==> n.day == day)
      && (forall id :: id in h.issued ==> h.issued[id].day <= day)
      && (forall id :: id in h.issued && h.issued[id].day == day ==> NetworkOf(h.issued[id]) in prefixes)
      && (forall n: Network :: n.day == day ==> NetworkRowIs(UseOf(prefixes, n), h, n))
  }

  lemma CloseNetworkRow(prefixes: map<Network, PrefixRow>, h: History, id: LeaseId, e: Ending, n: Network)
    requires id in h.issued && id !in h.ended
    requires NetworkRowIs(UseOf(prefixes, n), h, n)
    requires n == NetworkOf(h.issued[id]) ==> n in prefixes
    ensures var l := h.issued[id];
            NetworkRowIs(UseOf(if RefundsPrefix(l, e) then RefundNetwork(prefixes, NetworkOf(l)) else prefixes, n),
                         h.(ended := h.ended[id := e]), n)
  {
    EndTally(h, id, e, Analyses, OnNetwork(n));
    EndTally(h, id, e, Lookups, OnNetwork(n));
    EndTally(h, id, e, PrefixRefunds, OnNetwork(n));
    if RefundsPrefix(h.issued[id], e) && n == NetworkOf(h.issued[id]) {
      NotYetRefunded(h, id, PrefixRefunds, Analyses, OnNetwork(n));
    }
  }

  lemma CloseKeepsNetworks(prefixes: map<Network, PrefixRow>, purgedDay: Option<Day>, h: History, id: LeaseId,
                           e: Ending)
    requires id in h.issued && id !in h.ended
    requires NetworksAccounted(prefixes, purgedDay, h)
    ensures var l := h.issued[id];
            NetworksAccounted(if RefundsPrefix(l, e) then RefundNetwork(prefixes, NetworkOf(l))
                              else prefixes, purgedDay,
                              h.(ended := h.ended[id := e]))
  {
    var l := h.issued[id];
    var prefixes' := if RefundsPrefix(l, e) then RefundNetwork(prefixes, NetworkOf(l)) else prefixes;
    var h' := h.(ended := h.ended[id := e]);
    assert prefixes'.Keys == prefixes.Keys;
    forall n: Network | n.day == purgedDay.value ensures NetworkRowIs(UseOf(prefixes', n), h', n) {
      CloseNetworkRow(prefixes, h, id, e, n);
    }
  }

  lemma BillNetworkRow(prefixes: map<Network, PrefixRow>, h: History, c: Charge, n: Network)
    requires NetworkRowIs(UseOf(prefixes, n), h, n)
    requires n == NetworkOf(c.lease) ==> n in prefixes
    ensures NetworkRowIs(UseOf(ChargeNetwork(prefixes, NetworkOf(c.lease), CuSeconds(c.addedMs)), n),
                         h.(ledger := h.ledger + [c]), n)
  {
    LedgerSnoc(h.ledger, c, OnNetwork(n));
    CuSecondsAdds(BilledMs(h.ledger, OnNetwork(n)), c.addedMs);
    SameTallies(h, h.ledger + [c], Analyses, OnNetwork(n));
    SameTallies(h, h.ledger + [c], Lookups, OnNetwork(n));
    SameTallies(h, h.ledger + [c], PrefixRefunds, OnNetwork(n));
  }

  lemma BillKeepsNetworks(prefixes: map<Network, PrefixRow>, purgedDay: Option<Day>, h: History, c: Charge)
    requires NetworksAccounted(prefixes, purgedDay, h)
    requires c.id in h.issued && h.issued[c.id] == c.lease
    ensures NetworksAccounted(ChargeNetwork(prefixes, NetworkOf(c.lease), CuSeconds(c.addedMs)), purgedDay,
                              h.(ledger := h.ledger + [c]))
  {
    var prefixes' := ChargeNetwork(prefixes, NetworkOf(c.lease), CuSeconds(c.addedMs));
    var h' := h.(ledger := h.ledger + [c]);
    assert prefixes'.Keys == prefixes.Keys;
    forall n: Network | n.day == purgedDay.value ensures NetworkRowIs(UseOf(prefixes', n), h', n) {
      BillNetworkRow(prefixes, h, c, n);
    }
  }

  function IssuedUse(r: PrefixRow, l: Lease): PrefixRow {
    if l.lookup == 1 then r.(lookups := r.lookups + 1) else r.(count := r.count + 1, attempts := r.attempts + 1)
  }

  lemma IssueNetworkRow(prefixes: map<Network, PrefixRow>, h: History, id: LeaseId, l: Lease, n: Network)
    requires id !in h.issued && id !in h.ended && LeaseSound(l, h.clock)
    requires NetworkRowIs(UseOf(prefixes, n), h, n)
    requires n == NetworkOf(l) ==> IssuedUse(UseOf(prefixes, n), l).count <= PREFIX_DAILY_ANALYSES
                                   && IssuedUse(UseOf(prefixes, n), l).attempts <= PREFIX_DAILY_ADMISSIONS
                                   && IssuedUse(UseOf(prefixes, n), l).lookups <= PREFIX_DAILY_LOOKUPS
    ensures NetworkRowIs(UseOf(prefixes[NetworkOf(l) := IssuedUse(UseOf(prefixes, NetworkOf(l)), l)], n),
                         h.(issued := h.issued[id := l]), n)
  {
    IssueTally(h, id, l, Analyses, OnNetwork(n));
    IssueTally(h, id, l, Lookups, OnNetwork(n));
    IssueTally(h, id, l, PrefixRefunds, OnNetwork(n));
  }

  /** A network no lease was ever issued to has nothing counted or billed. */
  lemma UntouchedNetwork(leases: map<LeaseId, Lease>, h: History, n: Network)
    requires LeasesAccounted(leases, h)
    requires forall id :: id in h.issued ==> !Member(h.issued[id], OnNetwork(n))
    ensures NetworkRowIs(NO_USE, h, n)
  {
    forall t: Tally ensures Tallied(h, t, OnNetwork(n)) == 0 {
      assert TallySet(h, t, OnNetwork(n)) == {};
    }
    NothingBilled(h.ledger, OnNetwork(n));
  }

  // ----- the state row's counters -----

  ghost predicate TotalsAccounted(st: StateRow, h: History) {
    && st.cuTotalS == CuSeconds(BilledMs(h.ledger, Everyone))
    && st.egressTotal == BilledEgress(h.ledger, Everyone)
  }
}
