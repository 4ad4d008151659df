/** The governor object: its tables and state row, updated in place by its events
    (edge/src/governor.ts:360-1064).

    The event methods (the constructor, Settle, Admit, AdmitLookup, AlarmStart and AlarmFinish) are proved to
    make exactly the model's step for a possible event, and to keep the invariant of its runs; the others
    are the pieces they are made of. The clock, the drawn lease id and the poll's outcome are parameters.
 */
module GovernorObject {
  import opened Budget
  import opened Pacing
  import opened GovernorModel
  import opened Ledger
  import opened Accounts
  import opened Sanitizer
  import opened Invariant
  import opened Events
  import opened Polls

  // ----- lists of lease rows -----

  /** The ids of a table, each once. */
  ghost predicate Lists(leases: map<LeaseId, Lease>, ids: seq<LeaseId>) {
    && (forall i :: 0 <= i < |ids| ==> ids[i] in leases)
    && (forall i, j :: 0 <= i < j < |ids| ==> ids[i] != ids[j])
    && (forall id :: id in leases ==> id in ids)
  }

  /** The rows with these ids. */
  function RowsOf(leases: map<LeaseId, Lease>, ids: seq<LeaseId>): seq<Lease>
    requires forall i :: 0 <= i < |ids| ==> ids[i] in leases
  {
    seq(|ids|, i requires 0 <= i < |ids| => leases[ids[i]])
  }

  function Where(rows: seq<Lease>, who: Group): seq<Lease> {
    if rows == [] then []
    else
      var last, rest := rows[|rows| - 1], Where(rows[..|rows| - 1], who);
      if Member(last, who) then rest + [last] else rest
  }

  function Intervals(rows: seq<Lease>): seq<Interval> {
    seq(|rows|, i requires 0 <= i < |rows| => ProvisionalInterval(rows[i].admittedAt))
  }

  function SumEgress(rows: seq<Lease>): int {
    if rows == [] then 0 else SumEgress(rows[..|rows| - 1]) + rows[|rows| - 1].egress
  }

  lemma ListsShorter(leases: map<LeaseId, Lease>, ids: seq<LeaseId>)
    requires Lists(leases, ids) && ids != []
    ensures var n := |ids| - 1;
            && Lists(leases - {ids[n]}, ids[..n]) && ids[n] in leases
            && RowsOf(leases, ids)[..n] == RowsOf(leases - {ids[n]}, ids[..n]) && |RowsOf(leases, ids)| == n + 1
            && RowsOf(leases, ids)[n] == leases[ids[n]]
  {
  }

  lemma IntervalsSnoc(rows: seq<Lease>, last: Lease)
    ensures Points(Intervals(rows + [last])) == Points(Intervals(rows)) + Provisional(last)
  {
    assert Intervals(rows + [last]) == Intervals(rows) + [ProvisionalInterval(last.admittedAt)];
    PointsOfSnoc(Intervals(rows), ProvisionalInterval(last.admittedAt));
  }

  /** The union of a group's listed intervals is its cover. */
  lemma {:induction false} ListedCover(leases: map<LeaseId, Lease>, ids: seq<LeaseId>, who: Group)
    requires Lists(leases, ids)
    ensures Points(Intervals(Where(RowsOf(leases, ids), who))) == Cover(leases, who)
  {
    if ids == [] {
      assert leases == map[];
    } else {
      hide Cover, Lists, Provisional, Points, Intervals;
      var n := |ids| - 1;
      ListsShorter(leases, ids);
      ListedCover(leases - {ids[n]}, ids[..n], who);
      CoverRemove(leases, ids[n], who);
      IntervalsSnoc(Where(RowsOf(leases, ids)[..n], who), leases[ids[n]]);
    }
  }

  lemma SumEgressSnoc(rows: seq<Lease>, last: Lease)
    ensures SumEgress(rows + [last]) == SumEgress(rows) + last.egress
  {
    assert (rows + [last])[..|rows|] == rows;
  }

  lemma {:induction false} ListedEgress(leases: map<LeaseId, Lease>, ids: seq<LeaseId>, who: Group)
    requires Lists(leases, ids)
    ensures SumEgress(Where(RowsOf(leases, ids), who)) == EgressHeld(leases, who)
  {
    if ids == [] {
      assert leases == map[];
      assert EgressColumn(leases, who) == map[];
    } else {
      hide EgressHeld, Lists, Member;
      var n := |ids| - 1;
      ListsShorter(leases, ids);
      ListedEgress(leases - {ids[n]}, ids[..n], who);
      HeldRemove(leases, ids[n], who);
      SumEgressSnoc(Where(RowsOf(leases, ids)[..n], who), leases[ids[n]]);
      hide SumEgress;
    }
  }

  // ----- the sanitiser -----

  method FilterWindows(ws: seq<RawWindow>, now: int) returns (windows: seq<Interval>)
    ensures windows == PossibleWindows(ws, now)
  {
    windows := [];
    for i := 0 to |ws|
      invariant windows == PossibleWindows(ws[..i], now)
    {
      assert ws[..i + 1][..i] == ws[..i];
      if WindowPossible(ws[i], now) {
        windows := windows + [Interval(ws[i].start.value, ws[i].end.value)];
      }
    }
    assert ws[..|ws|] == ws;
  }

  method Sanitize(stored: Raw<RawState>, now: int) returns (st: StateRow)
    ensures st == SanitizeState(stored, now)
  {
    var raw: RawState := if stored.Is? then stored.value
                         else RawState(Other, Other, Other, Other, Other, Other, Other, Other, Other);
    var charged: seq<Interval> := [];
    if raw.charged.Is? {
      var kept := FilterWindows(raw.charged.value, now);
      charged := MergeIntervals(kept);
    }
    hide Merged, PossibleWindows, SanitizeNeon;
    st := StateRow(
      charged,
      if IsMeasure(raw.cuTotalS) then raw.cuTotalS.value else 0.0,
      CountOr0(raw.egressTotal),
      PastOr0(raw.lastAdmitAt, now),
      PastOr0(raw.lastPollAt, now),
      if raw.pollError.Is? then CutError(Some(raw.pollError.value)) else None,
      if raw.purgedDay.Is? && raw.purgedDay.value <= DayOf(now) then Some(raw.purgedDay.value) else None,
      if IsCount(raw.alarmAt) then Some(raw.alarmAt.value) else None,
      None);
    st := st.(neon := SanitizeNeon(raw.neon, now, st.cuTotalS, st.egressTotal));
  }

  class Governor {
    const neonKey: bool
    var days: map<Day, DayRow>
    var prefixes: map<Network, PrefixRow>
    var leases: map<LeaseId, Lease>
    var row: Option<StateRow>
    ghost var hist: History

    ghost function Snapshot(): Gov
      reads this
    {
      Gov(neonKey, days, prefixes, leases, row, hist)
    }

    /** The state of a run: the invariant holds. */
    ghost predicate Valid()
      reads this
    {
      Good(Snapshot())
    }

    /** An instance starts on what storage holds: a new governor on nothing, and what a run left is found whole. */
    constructor (neonKey: bool, days: map<Day, DayRow>, prefixes: map<Network, PrefixRow>,
                 leases: map<LeaseId, Lease>, row: Option<StateRow>, ghost hist: History, now: int)
      ensures var g := Gov(neonKey, days, prefixes, leases, row, hist);
              && Snapshot() == Next(g, Starts(now))
              && (Good(g) && hist.clock <= now ==> Valid() && Snapshot() == Tick(g, now))
    {
      hide Good, LeasePossible, DayOf;
      this.neonKey := neonKey;
      this.row := row;
      this.hist := hist.(clock := now);
      this.days := map d | d in days && d <= DayOf(now) :: days[d];
      this.prefixes := map n | n in prefixes && n.day <= DayOf(now) :: prefixes[n];
      this.leases := map id | id in leases && LeasePossible(leases[id], now) :: leases[id];
      new;
      ghost var g := Gov(neonKey, days, prefixes, leases, row, hist);
      assert Snapshot() == Restart(Tick(g, now), now);
      hide Restart, Tick;
      StartsWhole(g, now);
    }

    // ----- storage -----

    method LoadState(now: int) returns (st: StateRow)
      ensures st == Load(row, now)
    {
      if row.None? {
        st := INITIAL_STATE;
      } else {
        st := Sanitize(Is(EncodeState(row.value)), now);
      }
    }

    method SaveState(st: StateRow)
      modifies this`row
      ensures row == Some(st)
    {
      row := Some(st);
    }

    method LeaseRows() returns (rows: seq<Lease>, ghost ids: seq<LeaseId>)
      ensures Lists(leases, ids) && rows == RowsOf(leases, ids)
    {
      var rest := leases.Keys;
      rows, ids := [], [];
      while rest != {}
        invariant rest <= leases.Keys
        invariant forall i :: 0 <= i < |ids| ==> ids[i] in leases && ids[i] !in rest
        invariant forall i, j :: 0 <= i < j < |ids| ==> ids[i] != ids[j]
        invariant forall id :: id in leases ==> id in rest || id in ids
        invariant rows == RowsOf(leases, ids)
        decreases |rest|
      {
        var id :| id in rest;
        rest := rest - {id};
        rows, ids := rows + [leases[id]], ids + [id];
      }
    }

    // ----- charging -----

    /** Add settled charges to a day and to the counters in `st`. */
    method ChargeTotals(st: StateRow, day: Day, cuS: real, egress: int) returns (st': StateRow)
      modifies this`days
      ensures days == ChargeDay(old(days), day, cuS, egress)
      ensures st' == st.(cuTotalS := st.cuTotalS + cuS, egressTotal := st.egressTotal + egress)
    {
      var r := if day in days then days[day] else NO_DAY;
      days := days[day := r.(cuS := r.cuS + cuS, egress := r.egress + egress)];
      st' := st.(cuTotalS := st.cuTotalS + cuS, egressTotal := st.egressTotal + egress);
    }

    /** Charge an ending lease what its window adds to those charged so far. */
    method ChargeLease(st: StateRow, id: LeaseId, lease: Lease, start: int, end: int, keepAfter: int)
      returns (st': StateRow, cuS: real)
      modifies this`days, this`hist
      ensures var c := ChargeFor(Live(old(Snapshot()).(leases := old(leases) - {id}), st), id, lease, start, end,
                                 keepAfter);
              && cuS == CuSeconds(c.addedMs) && cuS >= 0.0
              && days == ChargeDay(old(days), lease.day, cuS, lease.egress)
              && hist == old(hist).(ledger := old(hist).ledger + [c])
              && st' == st.(charged := AddCharged(st.charged, Window(start, end), keepAfter),
                            cuTotalS := st.cuTotalS + cuS, egressTotal := st.egressTotal + lease.egress)
    {
      ghost var c := ChargeFor(Live(Snapshot().(leases := leases - {id}), st), id, lease, start, end, keepAfter);
      var charged, addedMs := ChargeWindow(st.charged, start, end, keepAfter);
      assert c.addedMs == addedMs;
      hide ChargeFor, AddCharged, AddedMs;
      cuS := CuSeconds(addedMs);
      st' := ChargeTotals(st, lease.day, cuS, lease.egress);
      st' := st'.(charged := charged);
      hist := hist.(ledger := hist.ledger + [c]);
    }

    /** Add a lease's compute to its network's row, and give back its count when `refund`; a row that is gone
        stays gone. */
    method ChargePrefix(lease: Lease, cuS: real, refund: bool)
      modifies this`prefixes
      ensures prefixes == ChargeNetwork(if refund then RefundNetwork(old(prefixes), NetworkOf(lease))
                                        else old(prefixes), NetworkOf(lease), cuS)
    {
      var n := NetworkOf(lease);
      if n in prefixes {
        var r := prefixes[n];
        prefixes := prefixes[n := r.(count := if refund then Max(0, r.count - 1) else r.count, cuS := r.cuS + cuS)];
      }
    }

    // ----- settle -----

    method RefundCounts(lease: Lease)
      modifies this`days
      ensures days == RefundDay(old(days), lease)
    {
      if lease.day in days {
        var r := days[lease.day];
        days := days[lease.day := r.(admitted := Max(0, r.admitted - 1), heavy := Max(0, r.heavy - lease.heavy),
                                     refunded := r.refunded + 1)];
      }
    }

    /** Charge a settled lease that has left the table, and save the state row; its network's row comes last. */
    method SettleCharge(now: int, id: LeaseId, lease: Lease, dbMs: Option<int>) returns (cuS: real)
      requires id !in leases
      modifies this`days, this`row, this`hist
      ensures var w, start := Live(old(Snapshot()), Load(old(row), now)), DbStart(lease.admittedAt, now, dbMs);
              var c := ChargeFor(w, id, lease, start, now, now - LEASE_TTL_MS);
              var billed := Bill(w, c, now - LEASE_TTL_MS);
              && cuS == CuSeconds(c.addedMs) && cuS >= 0.0
              && Snapshot() == Save(billed.g, billed.st).(prefixes := old(prefixes))
    {
      hide ChargeFor, AddCharged, Load, ChargeDay, ChargeNetwork;
      var st := LoadState(now);
      var start := DbStart(lease.admittedAt, now, dbMs);
      ghost var w := Live(Snapshot(), st);
      SameCharge(w, w, id, lease, start, now, now - LEASE_TTL_MS);
      assert leases - {id} == leases;
      var st';
      st', cuS := ChargeLease(st, id, lease, start, now, now - LEASE_TTL_MS);
      SaveState(st');
    }

    /** Drop a settled lease and give back the counts its ending refunds; its network's row comes last. */
    method CloseLease(id: LeaseId, lease: Lease, kind: SettleKind, dbMs: Option<int>) returns (refundPrefix: bool)
      requires id in leases && lease == leases[id]
      modifies this
      ensures var closed := Close(old(Snapshot()), id, Settled(kind, dbMs));
              && Snapshot() == closed.(prefixes := old(prefixes))
              && closed.prefixes == (if refundPrefix then RefundNetwork(old(prefixes), NetworkOf(lease))
                                     else old(prefixes))
              && closed.leases == old(leases) - {id} && closed.row == old(row)
    {
      hide RefundDay, RefundNetwork;
      leases := leases - {id};
      var analysis := lease.lookup != 1;
      var ranStatements := dbMs.Some? && dbMs.value > 0;
      var refundCounts := analysis
                          && (kind.NotReached? || kind.Shed? || ((kind.Rejected? || kind.Reused?) && !ranStatements));
      refundPrefix := analysis && (kind.NotReached? || kind.Shed?);
      if refundCounts {
        RefundCounts(lease);
      }
      hist := hist.(ended := hist.ended[id := Settled(kind, dbMs)]);
    }

    /** A network's row changes when there is something to charge or to give back. */
    method SettlePrefix(lease: Lease, cuS: real, refundPrefix: bool)
      requires cuS >= 0.0
      modifies this`prefixes
      ensures prefixes == ChargeNetwork(if refundPrefix then RefundNetwork(old(prefixes), NetworkOf(lease))
                                        else old(prefixes),
                                        NetworkOf(lease), cuS)
    {
      hide RefundNetwork, ChargeNetwork;
      NoChange(prefixes, NetworkOf(lease));
      if refundPrefix || cuS > 0.0 {
        ChargePrefix(lease, cuS, refundPrefix);
      }
    }

    /** The event: a report for a lease that is unknown, or has expired, does nothing. */
    method Settle(now: int, id: LeaseId, kind: SettleKind, dbMs: Option<int>)
      requires Valid() && Possible(Snapshot(), Settlement(now, id, kind, dbMs))
      modifies this
      ensures Valid() && Snapshot() == Next(old(Snapshot()), Settlement(now, id, kind, dbMs))
    {
      hide Good, Possible, GovernorModel.Settle;
      NextIsGood(Snapshot(), Settlement(now, id, kind, dbMs));
      hist := hist.(clock := now);
      SettleLease(now, id, kind, dbMs);
    }

    method SettleLease(now: int, id: LeaseId, kind: SettleKind, dbMs: Option<int>)
      modifies this
      ensures Snapshot() == GovernorModel.Settle(old(Snapshot()), now, id, kind, dbMs)
    {
      if id !in leases {
        return;
      }
      hide ChargeFor, AddCharged, Load, ChargeDay, RefundNetwork, ChargeNetwork, CuSeconds, DbStart, Close, Bill,
           GovernorModel.Settle;
      var lease := leases[id];
      ghost var before := Snapshot();
      var refundPrefix := CloseLease(id, lease, kind, dbMs);
      var cuS := 0.0;
      if !kind.NotReached? && dbMs != Some(0) {
        SettleInParts(before, Snapshot(), now, id, kind, dbMs);
        cuS := SettleCharge(now, id, lease, dbMs);
      } else {
        SettleUntouched(before, now, id, kind, dbMs);
      }
      SettlePrefix(lease, cuS, refundPrefix);
    }

    // ----- expiry -----

    method StaleLeases(now: int) returns (order: seq<LeaseId>)
      ensures StaleOrder(leases, now, order)
    {
      var rest := set id | id in leases && IsStale(leases[id], now);
      order := [];
      SortedNothing(leases, now);
      while rest != {}
        invariant SortedSoFar(leases, now, order, rest)
        decreases |rest|
      {
        OldestExists(leases, rest);
        var id :| id in rest && forall other :: other in rest ==> leases[id].admittedAt <= leases[other].admittedAt;
        SortedOneMore(leases, now, order, rest, id);
        rest := rest - {id};
        order := order + [id];
      }
    }

    method ExpireLease(st: StateRow, id: LeaseId, horizon: int) returns (st': StateRow)
      requires id in leases
      modifies this
      ensures Live(Snapshot(), st') == ExpireOne(Live(old(Snapshot()), st), id, horizon)
    {
      hide ChargeFor, AddCharged, ChargeDay, ChargeNetwork;
      var lease := leases[id];
      ghost var closed := Close(Snapshot(), id, Expired);
      var start, end := lease.admittedAt, lease.admittedAt + PROVISIONAL_BUSY_MS;
      SameCharge(Live(Snapshot().(leases := leases - {id}), st), Live(closed, st), id, lease, start, end, horizon);
      var cuS;
      st', cuS := ChargeLease(st, id, lease, start, end, horizon);
      NoChange(prefixes, NetworkOf(lease));
      if cuS > 0.0 {
        ChargePrefix(lease, cuS, false);
      }
      leases := leases - {id};
      hist := hist.(ended := hist.ended[id := Expired]);
    }

    /** Charge, and drop, every lease older than the time to live. */
    method ExpireLeases(now: int, st: StateRow) returns (expired: bool, st': StateRow, ghost order: seq<LeaseId>)
      modifies this
      ensures StaleOrder(old(leases), now, order) && expired == (order != [])
      ensures Live(Snapshot(), st') == Expire(Live(old(Snapshot()), st), now, order)
    {
      hide ExpireOne;
      var stale := StaleLeases(now);
      order, st', expired := stale, st, stale != [];
      if stale == [] {
        return;
      }
      ghost var w := Live(Snapshot(), st);
      var horizon := leases[stale[0]].admittedAt;
      for i := 0 to |stale|
        invariant Live(Snapshot(), st') == ExpireEach(w, stale[..i], horizon)
      {
        ExpireEachLeases(w, stale[..i], horizon);
        assert stale[i] !in Ids(stale[..i]);
        assert stale[..i + 1][..i] == stale[..i];
        st' := ExpireLease(st', stale[i], horizon);
      }
      assert stale[..|stale|] == stale;
      st' := st'.(charged := EndingAfter(st'.charged, now - LEASE_TTL_MS));
    }

    // ----- purge and alarm -----

    /** The day's first purge leaves only rows of today and of the retention, all of them exact. */
    method PurgeRows(now: int, st: StateRow) returns (st': StateRow)
      modifies this`prefixes, this`days
      ensures Live(Snapshot(), st') == Purge(Live(old(Snapshot()), st), now)
      ensures MayPurge(Live(old(Snapshot()), st), now) ==> IsPurged(Live(Snapshot(), st'), now)
    {
      hide MayPurge, IsPurged, DayOf;
      ghost var w := Live(Snapshot(), st);
      var today := DayOf(now);
      prefixes := map n | n in prefixes && n.day >= today :: prefixes[n];
      days := map d | d in days && d >= today - DAY_RETENTION_DAYS :: days[d];
      st' := st.(purgedDay := Some(today));
      PurgedRows(w, now);
    }

    /** Keep one alarm pending at the earliest time wanted, and save. */
    method ScheduleAlarm(st: StateRow, now: int)
      modifies this`row
      ensures row == Some(Schedule(Live(old(Snapshot()), st), now))
    {
      var times: seq<int> := [];
      if neonKey && now - st.lastAdmitAt <= NEON_POLL_INTERVAL_MS {
        times := times + [Max(now, st.lastPollAt + NEON_POLL_INTERVAL_MS)];
      }
      if prefixes != map[] || leases != map[] {
        times := times + [NextUtcMidnight(now)];
      }
      var wanted := if |times| == 0 then None else Some(if |times| == 2 then Min(times[0], times[1]) else times[0]);
      var current := if st.alarmAt.Some? && st.alarmAt.value >= now then st.alarmAt else None;
      if wanted.None? || (current.Some? && current.value <= wanted.value) {
        SaveState(st);
        return;
      }
      SaveState(st.(alarmAt := wanted));
    }

    // ----- admission -----

    /** Milliseconds the listed leases and a candidate window would add. */
    method AddedBy(rows: seq<Lease>, candidate: Interval, charged: seq<Interval>) returns (ms: int)
      ensures ms == |Points(Intervals(rows)) + Instants(candidate) - Points(charged)|
    {
      ms := UncoveredLength(Intervals(rows) + [candidate], charged);
      PointsOfSnoc(Intervals(rows), candidate);
    }

    /** Checks 4 to 7, when no lease is stale. */
    method ComputeChecks(st: StateRow, now: int, prefix: Prefix, egressBytes: int) returns (denial: Option<Result>)
      ensures denial == ComputeDenial(Snapshot(), st, now, prefix, egressBytes)
    {
      hide Cover, Points, Where, Intervals, SumEgress, EgressHeld, RowsOf, Lists, Deny, AllowedAt, PacingResumesAt,
           CuSeconds, MonthCuS, NextUtcMidnight, DayOf, DailyCeilingS;
      var today, midnight := DayOf(now), NextUtcMidnight(now);
      var day, use := DayRowOf(days, today), UseOf(prefixes, Network(today, prefix));
      var rows, ids := LeaseRows();
      var todays, own := Where(rows, OnDay(today)), Where(rows, OnNetwork(Network(today, prefix)));
      var candidate := ProvisionalInterval(now);
      var ceilingS := DailyCeilingS(st, now, neonKey);
      ListedCover(leases, ids, OnNetwork(Network(today, prefix)));
      ListedCover(leases, ids, OnDay(today));
      var ownMs := AddedBy(own, candidate, st.charged);
      if Exceeded(use.cuS, CuSeconds(ownMs), PREFIX_DAILY_CU_SHARE * ceilingS) {
        return Some(Deny(RateLimited, ClientScope, PrefixBudget, midnight, now));
      }
      var todaysMs := AddedBy(todays, candidate, st.charged);
      if Exceeded(day.cuS, CuSeconds(todaysMs), ceilingS) {
        return Some(Deny(DailyCapacityReached, DailyScope, CuDay, midnight, now));
      }
      denial := MonthlyChecks(st, now, egressBytes, day, rows, ids);
    }

    /** Checks 6 and 7: a day's share of egress, or the month's figures where Neon gives them. */
    method MonthlyChecks(st: StateRow, now: int, egressBytes: int, day: DayRow, rows: seq<Lease>,
                         ghost ids: seq<LeaseId>)
      returns (denial: Option<Result>)
      requires Lists(leases, ids) && rows == RowsOf(leases, ids)
      ensures denial == MonthlyDenial(Snapshot(), st, now, egressBytes, day)
    {
      hide Cover, Points, Where, Intervals, SumEgress, EgressHeld, RowsOf, Lists, Deny, AllowedAt, PacingResumesAt,
           CuSeconds, MonthCuS;
      var today, midnight := DayOf(now), NextUtcMidnight(now);
      var neon := CurrentNeon(st, now, neonKey);
      if neon.None? {
        ListedEgress(leases, ids, OnDay(today));
        if Exceeded(day.egress as real, (SumEgress(Where(rows, OnDay(today))) + egressBytes) as real,
                    EGRESS_DAILY_CONSERVATIVE_BYTES) {
          return Some(Deny(DailyCapacityReached, DailyScope, EgressDay, midnight, now));
        }
        return None;
      }
      ListedEgress(leases, ids, Everyone);
      ListedCover(leases, ids, Everyone);
      var all := Where(rows, Everyone);
      var egress := neon.value.dataTransferBytes
          + (st.egressTotal - neon.value.egressBase + SumEgress(all) + egressBytes) as real;
      if egress >= EGRESS_STOP_BYTES {
        return Some(Deny(CapacityPaused, MonthlyScope, Egress, neon.value.periodEnd, now));
      }
      var allMs := AddedBy(all, ProvisionalInterval(now), st.charged);
      var monthCuHours := MonthCuS(st, neon.value, allMs) / 3600.0;
      if monthCuHours > AllowedAt(now, neon.value.periodStart, neon.value.periodEnd) {
        var resumesAt := PacingResumesAt(monthCuHours, neon.value.periodStart, neon.value.periodEnd);
        return Some(Deny(CapacityPaused, MonthlyScope, CuMonth, resumesAt, now));
      }
      return None;
    }

    /** The compute checks of a request, after stale leases have expired (and been saved, if any did). */
    method ComputeDenialFor(st: StateRow, now: int, prefix: Prefix, egressBytes: int)
      returns (denial: Option<Result>, st': StateRow, ghost order: seq<LeaseId>)
      modifies this
      ensures StaleOrder(old(leases), now, order)
      ensures var w := Expire(Live(old(Snapshot()), st), now, order);
              && st' == w.st && Snapshot() == (if order == [] then old(Snapshot()) else Save(w.g, w.st))
              && denial == ComputeDenial(Snapshot(), st', now, prefix, egressBytes)
    {
      hide Expire, StaleOrder, ComputeDenial;
      var expired;
      expired, st', order := ExpireLeases(now, st);
      if expired {
        SaveState(st');
      } else {
        NothingExpires(Live(old(Snapshot()), st), now);
      }
      denial := ComputeChecks(st', now, prefix, egressBytes);
    }

    /** Write an admitted lease's rows, purge once a day, schedule the alarm and save. */
    method IssueLease(st: StateRow, now: int, id: LeaseId, lease: Lease)
      modifies this
      ensures Snapshot() == GovernorModel.Admit(Live(old(Snapshot()), st), now, id, lease)
    {
      hide Schedule;
      leases := leases[id := lease];
      var day, use := DayRowOf(days, lease.day), UseOf(prefixes, NetworkOf(lease));
      if lease.lookup == 1 {
        days := days[lease.day := day.(lookups := day.lookups + 1)];
        prefixes := prefixes[NetworkOf(lease) := use.(lookups := use.lookups + 1)];
      } else {
        days := days[lease.day := day.(admitted := day.admitted + 1, heavy := day.heavy + lease.heavy)];
        prefixes := prefixes[NetworkOf(lease) := use.(count := use.count + 1, attempts := use.attempts + 1)];
      }
      hist := hist.(issued := hist.issued[id := lease]);
      assert Snapshot() == Issue(old(Snapshot()), id, lease);
      hide Issue;
      var st' := if lease.lookup == 1 then st else st.(lastAdmitAt := now);
      if st'.purgedDay != Some(DayOf(now)) {
        st' := PurgeRows(now, st');
      }
      ScheduleAlarm(st', now);
    }

    /** The event: an analysis asks for admission, and expires the stale leases in `order` if its counts allow it. */
    method Admit(now: int, prefix: Prefix, light: bool, id: LeaseId) returns (result: Result, ghost order: seq<LeaseId>)
      requires Valid() && hist.clock <= now && id !in hist.issued
      modifies this
      ensures var e := Request(now, id, AnalysisLease(now, prefix, !light), order);
              && Valid() && Possible(old(Snapshot()), e) && Snapshot() == Next(old(Snapshot()), e)
              && result == Admission(Tick(old(Snapshot()), now), now, id, e.lease, order).result
    {
      hide Good, Possible, Expire, StaleOrder, ComputeDenial, Load, GovernorModel.Admit, Deny, NextUtcMidnight, DayOf;
      ghost var g, lease := Snapshot(), AnalysisLease(now, prefix, !light);
      hist := hist.(clock := now);
      result, order := AdmitAnalysis(now, prefix, light, id);
      IsAnalysis(g, now, id, prefix, !light, order);
      NextIsGood(g, Request(now, id, lease, order));
    }

    method AdmitAnalysis(now: int, prefix: Prefix, light: bool, id: LeaseId)
        returns (result: Result, ghost order: seq<LeaseId>)
      modifies this
      ensures StaleOrder(old(leases), now, order)
      ensures Outcome(Snapshot(), result)
              == Admission(old(Snapshot()), now, id, AnalysisLease(now, prefix, !light), order)
    {
      hide Expire, StaleOrder, ComputeDenial, Load, GovernorModel.Admit, Deny, NextUtcMidnight, DayOf;
      order := OrderOf(leases, now);
      var lease := AnalysisLease(now, prefix, !light);
      var midnight := NextUtcMidnight(now);
      var use := UseOf(prefixes, NetworkOf(lease));
      if Reached(use.count, PREFIX_DAILY_ANALYSES) || Reached(use.attempts, PREFIX_DAILY_ADMISSIONS) {
        return Deny(RateLimited, ClientScope, PrefixBudget, midnight, now), order;
      }
      var day := DayRowOf(days, lease.day);
      if Reached(day.admitted, GLOBAL_DAILY_ANALYSES) {
        return Deny(DailyCapacityReached, GlobalScope, GlobalBudget, midnight, now), order;
      }
      if !light && Reached(day.heavy, HEAVY_DAILY_ANALYSES) {
        return Deny(DailyCapacityReached, DailyScope, HeavyBudget, midnight, now), order;
      }
      result, order := FinishRequest(now, lease, id);
    }

    /** The event: a metadata lookup asks for admission. */
    method AdmitLookup(now: int, prefix: Prefix, id: LeaseId) returns (result: Result, ghost order: seq<LeaseId>)
      requires Valid() && hist.clock <= now && id !in hist.issued
      modifies this
      ensures var e := Request(now, id, LookupLease(now, prefix), order);
              && Valid() && Possible(old(Snapshot()), e) && Snapshot() == Next(old(Snapshot()), e)
              && result == Admission(Tick(old(Snapshot()), now), now, id, e.lease, order).result
    {
      hide Good, Possible, Expire, StaleOrder, ComputeDenial, Load, GovernorModel.Admit, Deny, NextUtcMidnight, DayOf;
      ghost var g := Snapshot();
      hist := hist.(clock := now);
      result, order := AdmitCounted(now, prefix, id);
      IsLookup(g, now, id, prefix, order);
      NextIsGood(g, Request(now, id, LookupLease(now, prefix), order));
    }

    method AdmitCounted(now: int, prefix: Prefix, id: LeaseId) returns (result: Result, ghost order: seq<LeaseId>)
      modifies this
      ensures StaleOrder(old(leases), now, order)
      ensures Outcome(Snapshot(), result) == Admission(old(Snapshot()), now, id, LookupLease(now, prefix), order)
    {
      hide Expire, StaleOrder, ComputeDenial, Load, GovernorModel.Admit, Deny, NextUtcMidnight, DayOf;
      order := OrderOf(leases, now);
      var lease := LookupLease(now, prefix);
      var midnight := NextUtcMidnight(now);
      var use := UseOf(prefixes, NetworkOf(lease));
      if Reached(use.lookups, PREFIX_DAILY_LOOKUPS) {
        return Deny(RateLimited, ClientScope, Metadata, midnight, now), order;
      }
      var day := DayRowOf(days, lease.day);
      if Reached(day.lookups, GLOBAL_DAILY_LOOKUPS) {
        return Deny(DailyCapacityReached, GlobalScope, Metadata, midnight, now), order;
      }
      result, order := FinishRequest(now, lease, id);
    }

    /** What both kinds of request do once their counts allow them. */
    method FinishRequest(now: int, lease: Lease, id: LeaseId) returns (result: Result, ghost order: seq<LeaseId>)
      requires CountDenial(Snapshot(), now, lease).None?
      modifies this
      ensures StaleOrder(old(leases), now, order)
      ensures Outcome(Snapshot(), result) == Admission(old(Snapshot()), now, id, lease, order)
    {
      hide Expire, StaleOrder, ComputeDenial, Load, GovernorModel.Admit, CountDenial;
      var st := LoadState(now);
      var denial, st';
      denial, st', order := ComputeDenialFor(st, now, lease.prefix, lease.egress);
      if denial.Some? {
        return denial.value, order;
      }
      IssueLease(st', now, id, lease);
      result := Admitted(id);
    }

    // ----- the alarm -----

    /** The event: the alarm up to its fetch; `polls` says whether it goes on to fetch. */
    method AlarmStart(now: int) returns (polls: bool, ghost order: seq<LeaseId>)
      requires Valid() && hist.clock <= now
      modifies this
      ensures var e := Alarm(now, order);
              && Valid() && Possible(old(Snapshot()), e) && Snapshot() == Next(old(Snapshot()), e)
      ensures var w := AlarmWork(Tick(old(Snapshot()), now), now, order); polls == PollDue(w.g, w.st, now)
    {
      hide Good, StaleOrder, GovernorModel.AlarmStart, AlarmWork, PollDue;
      ghost var g := Snapshot();
      hist := hist.(clock := now);
      polls, order := AlarmRuns(now);
      NextIsGood(g, Alarm(now, order));
    }

    method AlarmRuns(now: int) returns (polls: bool, ghost order: seq<LeaseId>)
      modifies this
      ensures StaleOrder(old(leases), now, order)
      ensures Snapshot() == GovernorModel.AlarmStart(old(Snapshot()), now, order)
      ensures var w := AlarmWork(old(Snapshot()), now, order); polls == PollDue(w.g, w.st, now)
    {
      hide Expire, StaleOrder, Load, Schedule;
      var st := LoadState(now);
      st := st.(alarmAt := None);
      var expired;
      expired, st, order := ExpireLeases(now, st);
      if st.purgedDay != Some(DayOf(now)) {
        st := PurgeRows(now, st);
      }
      polls := neonKey && now - st.lastAdmitAt <= NEON_POLL_INTERVAL_MS && now - st.lastPollAt >= NEON_POLL_INTERVAL_MS;
      if polls {
        st := st.(lastPollAt := now);
        hist := hist.(polls := hist.polls + {now});
      }
      SaveState(st);
      if !polls {
        var latest := LoadState(now);
        ScheduleAlarm(latest, now);
      }
    }

    /** The state with the outcome of a poll begun at `polledAt`: figures a later load would keep, or why there are
        none. */
    method ApplyResult(st: StateRow, now: int, polledAt: int, result: PollResult) returns (st': StateRow)
      ensures st' == ApplyPoll(Snapshot(), st, now, polledAt, result)
      ensures Sound(st, now) ==> Sound(st', now)
      ensures Sound(st, now) ==> forall later :: later >= now ==> Load(Some(st'), later).neon == st'.neon
      ensures Applies(Snapshot(), st, now, polledAt, result) ==>
                && FiguresOf(st'.neon, Some(PollEnds(now, polledAt, result)))
                && st'.neon.value.cuAtPollS == st.cuTotalS && st'.neon.value.egressAtPoll == st.egressTotal
                && (st.neon.Some? ==> st'.neon.value.cuBaseS == st.neon.value.cuAtPollS
                                      && st'.neon.value.egressBase == st.neon.value.egressAtPoll)
      ensures !Applies(Snapshot(), st, now, polledAt, result) ==> st'.neon == st.neon && st'.pollError.Some?
    {
      PollLeaves(Snapshot(), st, now, polledAt, result);
      hide SanitizeNeon, DayOf, Sound, Load, Applies;
      if result.Failed? {
        return st.(pollError := Some(result.error));
      }
      var today := DayRowOf(days, DayOf(polledAt));
      var previous := st.neon;
      var usage := NeonUsage(
        polledAt, result.computeTimeS, result.dataTransferBytes, result.periodStart, result.periodEnd,
        if previous.Some? then previous.value.cuAtPollS
        else if today.cuS < 0.0 then 0.0 else MaxReal(0.0, st.cuTotalS - today.cuS),
        if previous.Some? then previous.value.egressAtPoll
        else if today.egress < 0 then 0 else Max(0, st.egressTotal - today.egress),
        st.cuTotalS, st.egressTotal);
      var neon := SanitizeNeon(Is(EncodeNeon(usage)), now, st.cuTotalS, st.egressTotal);
      st' := st.(pollError := if neon.None? then Some("invalid_response") else None);
      if neon.Some? {
        st' := st'.(neon := neon);
      }
    }

    /** The event: the alarm after the fetch it began at `polledAt`, others having run in between. */
    method AlarmFinish(now: int, polledAt: int, result: PollResult)
      requires Valid() && Possible(Snapshot(), PollEnds(now, polledAt, result))
      modifies this
      ensures Valid() && Snapshot() == Next(old(Snapshot()), PollEnds(now, polledAt, result))
    {
      hide Good, Possible, GovernorModel.AlarmFinish;
      NextIsGood(Snapshot(), PollEnds(now, polledAt, result));
      hist := hist.(clock := now);
      FetchEnds(now, polledAt, result);
    }

    method FetchEnds(now: int, polledAt: int, result: PollResult)
      modifies this
      ensures Snapshot() == GovernorModel.AlarmFinish(old(Snapshot()), now, polledAt, result)
    {
      hide Load, Schedule, ApplyPoll, Applies;
      var st := LoadState(now);
      ghost var applies := Applies(Snapshot(), st, now, polledAt, result);
      st := ApplyResult(st, now, polledAt, result);
      hist := hist.(polls := hist.polls - {polledAt},
                    applied := if applies then hist.applied + [|hist.ledger|] else hist.applied);
      SaveState(st);
      var latest := LoadState(now);
      ScheduleAlarm(latest, now);
    }
  }

  /** A restart on what a run left deletes nothing. */
  lemma StartsWhole(g: Gov, now: int)
    ensures Good(g) && g.hist.clock <= now ==> Good(Next(g, Starts(now))) && Next(g, Starts(now)) == Tick(g, now)
  {
    hide Good, Restart;
    if Good(g) && g.hist.clock <= now {
      TickIsGood(g, now);
      RestartIsNothing(Tick(g, now), now);
    }
  }

  /** The state in which a purge runs: nothing is stale, and today is not purged yet. */
  ghost predicate MayPurge(w: Live, now: int) {
    Holds(w) && w.g.hist.clock == now && NoneStale(w.g.leases, now) && w.st.purgedDay != Some(DayOf(now))
  }

  /** The invariant holds; every network row is of today, every day row of the retention, and the day of every
      live lease has its row. */
  ghost predicate IsPurged(w: Live, now: int) {
    && Holds(w)
    && (forall n :: n in w.g.prefixes ==> n.day == DayOf(now))
    && (forall d :: d in w.g.days ==> DayOf(now) - DAY_RETENTION_DAYS <= d <= DayOf(now))
    && (forall id :: id in w.g.leases ==> w.g.leases[id].day in w.g.days)
  }

  lemma PurgedRows(w: Live, now: int)
    ensures MayPurge(w, now) ==> IsPurged(Purge(w, now), now)
  {
    if MayPurge(w, now) {
      RecentDays(w, now);
      PurgeKeepsTables(w, now);
      PurgeKeepsRest(w, now);
      hide Charges, LeasesAccounted, DayRowIs, NetworkRowIs;
    }
  }

  lemma PollLeaves(g: Gov, st: StateRow, now: int, polledAt: int, r: PollResult)
    ensures var st' := ApplyPoll(g, st, now, polledAt, r);
            && (Sound(st, now) ==> Sound(st', now) && forall later :: later >= now ==>
                Load(Some(st'), later).neon == st'.neon)
            && (Applies(g, st, now, polledAt, r) ==>
                  && FiguresOf(st'.neon, Some(PollEnds(now, polledAt, r)))
                  && st'.neon.value.cuAtPollS == st.cuTotalS && st'.neon.value.egressAtPoll == st.egressTotal
                  && (st.neon.Some? ==> st'.neon.value.cuBaseS == st.neon.value.cuAtPollS
                                        && st'.neon.value.egressBase == st.neon.value.egressAtPoll))
            && (!Applies(g, st, now, polledAt, r) ==> st'.neon == st.neon && st'.pollError.Some?)
  {
    var st' := ApplyPoll(g, st, now, polledAt, r);
    if r.Usage? {
      SanitizedNeon(PolledUsage(g, st, polledAt, r), now, st.cuTotalS, st.egressTotal);
    }
    if Sound(st, now) {
      PollKeepsSound(Live(g, st), now, polledAt, r);
      hide Sound, SanitizeState, ApplyPoll;
      forall later | later >= now ensures Load(Some(st'), later).neon == st'.neon {
        SoundLater(st', now, later);
        LoadSound(st', later);
      }
    }
  }

  lemma IsAnalysis(g: Gov, now: int, id: LeaseId, prefix: Prefix, heavy: bool, order: seq<LeaseId>)
    requires g.hist.clock <= now && id !in g.hist.issued && StaleOrder(g.leases, now, order)
    ensures Possible(g, Request(now, id, AnalysisLease(now, prefix, heavy), order))
  {
  }

  lemma IsLookup(g: Gov, now: int, id: LeaseId, prefix: Prefix, order: seq<LeaseId>)
    requires g.hist.clock <= now && id !in g.hist.issued && StaleOrder(g.leases, now, order)
    ensures Possible(g, Request(now, id, LookupLease(now, prefix), order))
  {
  }

  /** The stale leases have an order. */
  lemma OrderOf(leases: map<LeaseId, Lease>, now: int) returns (order: seq<LeaseId>)
    ensures StaleOrder(leases, now, order)
  {
    var rest := set id | id in leases && IsStale(leases[id], now);
    order := [];
    SortedNothing(leases, now);
    while rest != {}
      invariant SortedSoFar(leases, now, order, rest)
      decreases |rest|
    {
      OldestExists(leases, rest);
      var id :| id in rest && forall other :: other in rest ==> leases[id].admittedAt <= leases[other].admittedAt;
      SortedOneMore(leases, now, order, rest, id);
      rest, order := rest - {id}, order + [id];
    }
  }

  lemma NoChange(prefixes: map<Network, PrefixRow>, n: Network)
    ensures ChargeNetwork(prefixes, n, 0.0) == prefixes
  {
  }

  lemma NothingExpires(w: Live, now: int)
    ensures Expire(w, now, []) == w
  {
  }

  /** `order` lists the stale leases not in `rest`, oldest first, and none in `rest` is older than they. */
  ghost predicate SortedSoFar(leases: map<LeaseId, Lease>, now: int, order: seq<LeaseId>, rest: set<LeaseId>) {
    && (forall id :: id in rest ==> id in leases && IsStale(leases[id], now) && id !in order)
    && (forall i :: 0 <= i < |order| ==> order[i] in leases && IsStale(leases[order[i]], now))
    && (forall id :: id in leases && IsStale(leases[id], now) ==> id in rest || id in order)
    && (forall i, j :: 0 <= i < j < |order| ==>
          order[i] != order[j] && leases[order[i]].admittedAt <= leases[order[j]].admittedAt)
    && (forall i, id :: 0 <= i < |order| && id in rest ==> leases[order[i]].admittedAt <= leases[id].admittedAt)
  }

  lemma SortedNothing(leases: map<LeaseId, Lease>, now: int)
    ensures SortedSoFar(leases, now, [], set id | id in leases && IsStale(leases[id], now))
  {
  }

  lemma SortedOneMore(leases: map<LeaseId, Lease>, now: int, order: seq<LeaseId>, rest: set<LeaseId>, id: LeaseId)
    requires SortedSoFar(leases, now, order, rest)
    requires id in rest && forall other :: other in rest ==> leases[id].admittedAt <= leases[other].admittedAt
    ensures SortedSoFar(leases, now, order + [id], rest - {id})
  {
    hide IsStale;
    var order' := order + [id];
    forall i, j | 0 <= i < j < |order'|
      ensures order'[i] != order'[j] && order'[i] in leases && order'[j] in leases
              && leases[order'[i]].admittedAt <= leases[order'[j]].admittedAt
    {
      assert order'[i] == order[i];
      if j < |order| { assert order'[j] == order[j]; }
    }
  }

  lemma {:induction false} OldestExists(leases: map<LeaseId, Lease>, rest: set<LeaseId>)
    requires rest <= leases.Keys && rest != {}
    ensures exists id :: id in rest && forall other :: other in rest ==>
            leases[id].admittedAt <= leases[other].admittedAt
    decreases |rest|
  {
    var one :| one in rest;
    if rest != {one} {
      assert rest - {one} != {};
      OldestExists(leases, rest - {one});
      var best :| best in rest - {one} && forall other :: other in rest - {one} ==>
          leases[best].admittedAt <= leases[other].admittedAt;
      if leases[one].admittedAt < leases[best].admittedAt {
        assert forall other :: other in rest ==> leases[one].admittedAt <= leases[other].admittedAt;
      } else {
        assert forall other :: other in rest ==> leases[best].admittedAt <= leases[other].admittedAt;
      }
    }
  }

  lemma {:induction false} ExpireEachLeases(w: Live, order: seq<LeaseId>, horizon: int)
    ensures ExpireEach(w, order, horizon).g.leases == w.g.leases - Ids(order)
  {
    if order == [] {
      assert w.g.leases - Ids(order) == w.g.leases;
    } else {
      ExpireEachLeases(w, order[..|order| - 1], horizon);
      TakeOneMore(w.g.leases, order);
      hide ChargeFor, ChargeDay, ChargeNetwork, AddCharged, Ids;
    }
  }

  /** A charge reaches the network's row apart from everything else. */
  lemma NetworkApart(g: Gov, prefixes: map<Network, PrefixRow>, st: StateRow, c: Charge, keepAfter: int)
    ensures var whole, apart := Bill(Live(g, st), c, keepAfter), Bill(Live(g.(prefixes := prefixes), st), c, keepAfter);
            Save(whole.g, whole.st)
            == Save(apart.g, apart.st).(prefixes := ChargeNetwork(g.prefixes, NetworkOf(c.lease), CuSeconds(c.addedMs)))
  {
    hide AddCharged, ChargeDay, ChargeNetwork, CuSeconds;
  }

  /** A settle that charges, its network's row apart. */
  lemma SettleInParts(before: Gov, apart: Gov, now: int, id: LeaseId, kind: SettleKind, dbMs: Option<int>)
    requires id in before.leases && DbTouched(kind, dbMs)
    requires apart == Close(before, id, Settled(kind, dbMs)).(prefixes := before.prefixes)
    ensures var l, horizon, closed := before.leases[id], now - LEASE_TTL_MS, Close(before, id, Settled(kind, dbMs));
            var w := Live(apart, Load(before.row, now));
            var c := ChargeFor(w, id, l, DbStart(l.admittedAt, now, dbMs), now, horizon);
            var billed := Bill(w, c, horizon);
            GovernorModel.Settle(before, now, id, kind, dbMs)
            == Save(billed.g, billed.st).(prefixes := ChargeNetwork(closed.prefixes, NetworkOf(l),
                                                                    CuSeconds(c.addedMs)))
  {
    hide ChargeFor, AddCharged, Load, ChargeDay, ChargeNetwork, CuSeconds, DbStart, Close, Bill;
    var l, st, horizon, closed := before.leases[id], Load(before.row, now), now - LEASE_TTL_MS,
        Close(before, id, Settled(kind, dbMs));
    var start := DbStart(l.admittedAt, now, dbMs);
    SameCharge(Live(apart, st), Live(closed, st), id, l, start, now, horizon);
    NetworkApart(closed, before.prefixes, st, ChargeFor(Live(closed, st), id, l, start, now, horizon), horizon);
  }

  lemma SettleUntouched(before: Gov, now: int, id: LeaseId, kind: SettleKind, dbMs: Option<int>)
    requires id in before.leases && !DbTouched(kind, dbMs)
    ensures var closed := Close(before, id, Settled(kind, dbMs));
            && GovernorModel.Settle(before, now, id, kind, dbMs) == closed
            && ChargeNetwork(closed.prefixes, NetworkOf(before.leases[id]), 0.0) == closed.prefixes
  {
    hide Close;
    NoChange(Close(before, id, Settled(kind, dbMs)).prefixes, NetworkOf(before.leases[id]));
  }

  /** A charge reads the live leases and the windows charged so far. */
  lemma SameCharge(w: Live, w': Live, id: LeaseId, l: Lease, start: int, end: int, keepAfter: int)
    requires w'.g.leases == w.g.leases && w'.st.charged == w.st.charged
    ensures ChargeFor(w', id, l, start, end, keepAfter) == ChargeFor(w, id, l, start, end, keepAfter)
    ensures var c := ChargeFor(w, id, l, start, end, keepAfter);
            c.id == id && c.lease == l && c.window == Window(start, end)
  {
    hide AddedMs, LateMs, LostMs, AddCharged, Cover;
  }
}
