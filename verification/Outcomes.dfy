/** What a settlement and an expiry do, told without the functions that do it: in the numbers of edge/src/constants.ts,
    and in the rows and the ledger before and after (edge/src/governor.ts:520-560, 881-925, 944-958).
 */
module Outcomes {
  import opened Budget
  import opened Pacing
  import opened GovernorModel
  import opened Invariant
  import opened Events
  import opened Punctual
  import opened StateTheorems

  // ----- a settlement -----

  /** A report that gives an analysis's counts back: nothing was computed, or nothing that ran statements. */
  predicate GivesBack(lookup: int, kind: SettleKind, dbMs: Option<int>) {
    && lookup != 1
    && match kind
       case NotReached => true
       case Shed => true
       case Rejected => dbMs.None? || dbMs.value <= 0
       case Reused => dbMs.None? || dbMs.value <= 0
       case Computed => false
  }

  /** A report that gives its network's count back as well. */
  predicate GivesShareBack(lookup: int, kind: SettleKind) {
    lookup != 1 && (kind == NotReached || kind == Shed)
  }

  /** A report that may have kept the database awake. */
  predicate Costs(kind: SettleKind, dbMs: Option<int>) {
    kind != NotReached && (dbMs.None? || dbMs.value < 0 || dbMs.value > 0)
  }

  /** When the DB work of a report began: its reported time and 5 s before it ended, but not before its admission. */
  predicate BeganAt(start: int, admittedAt: int, now: int, dbMs: Option<int>) {
    match dbMs
    case None => start == admittedAt
    case Some(ms) =>
      && admittedAt <= start && now - ms - 5_000 <= start
      && (start == admittedAt || start + ms + 5_000 == now)
  }

  /** CU-seconds of `ms` at 2 CU. */
  function AtTwoCu(ms: int): real { 2.0 * ms as real / 1000.0 }

  function One(yes: bool): int { if yes then 1 else 0 }

  /** The ledger grows by the charge of `l`: its window, and the part of it that no window remembered covers. */
  ghost predicate Charged(g: Gov, g': Gov, e: Event, l: Lease)
    requires e.Settlement?
  {
    && |g'.hist.ledger| == |g.hist.ledger| + 1 && g.hist.ledger <= g'.hist.ledger
    && var c := g'.hist.ledger[|g.hist.ledger|];
       && c.id == e.id && c.lease == l
       && BeganAt(c.window.start, l.admittedAt, e.now, e.dbMs) && c.window.end == e.now + 300_000
       && c.addedMs == |Span(c.window.start, c.window.end) - Points(Stored(g).charged)|
       && Stored(g').cuTotalS == Stored(g).cuTotalS + AtTwoCu(c.addedMs)
       && Stored(g').egressTotal == Stored(g).egressTotal + l.egress
  }

  ghost function BilledNow(g: Gov, g': Gov): int {
    if |g'.hist.ledger| > |g.hist.ledger| then g'.hist.ledger[|g.hist.ledger|].addedMs else 0
  }

  /** The rows of the lease's day and network, and of no other, change by what was charged and given back. */
  ghost predicate RowsSettled(g: Gov, g': Gov, e: Event, l: Lease)
    requires e.Settlement?
  {
    var back, share := One(GivesBack(l.lookup, e.kind, e.dbMs)), One(GivesShareBack(l.lookup, e.kind));
    var cuS, egress := AtTwoCu(BilledNow(g, g')), if Costs(e.kind, e.dbMs) then l.egress else 0;
    var n := Network(l.day, l.prefix);
    && l.day in g.days
    && (var d := g.days[l.day];
        g'.days == g.days[l.day := DayRow(d.admitted - back, d.heavy - back * l.heavy, d.cuS + cuS, d.egress + egress,
                                          d.refunded + back, d.lookups)])
    && g'.prefixes == if n !in g.prefixes then g.prefixes
                      else
                        var u := g.prefixes[n];
                        g.prefixes[n := PrefixRow(u.count - share, u.attempts, u.cuS + cuS, u.lookups)]
  }

  /** The lease leaves, is charged once or not at all, and gives back what its report says. */
  ghost predicate SettledInto(g: Gov, g': Gov, e: Event)
    requires e.Settlement? && e.id in g.leases
  {
    var l := g.leases[e.id];
    && g'.leases == g.leases - {e.id}
    && (if Costs(e.kind, e.dbMs) then Charged(g, g', e, l)
        else g'.hist.ledger == g.hist.ledger && g'.row == g.row)
    && RowsSettled(g, g', e, l)
  }

  /** A settlement, whatever its kind and DB time: of a lease that is unknown it changes nothing, and a live one is
      settled. */
  lemma SettlementOutcome(g: Gov, e: Event)
    requires Good(g) && Possible(g, e) && e.Settlement?
    ensures var g' := Next(g, e);
            if e.id in g.leases then SettledInto(g, g', e) else g' == g.(hist := g.hist.(clock := e.now))
  {
    hide Good, SettledInto, RefundHasCounts, Settle;
    if e.id in g.leases {
      var t := Tick(g, e.now);
      TickIsGood(g, e.now);
      RefundFindsItsCounts(t, e.id, Settled(e.kind, e.dbMs));
      if DbTouched(e.kind, e.dbMs) {
        ChargingOutcome(t, e);
      } else {
        FreeOutcome(t, e);
      }
      FromTick(g, e);
    } else {
      UnknownLease(Tick(g, e.now), e);
    }
  }

  lemma UnknownLease(t: Gov, e: Event)
    requires e.Settlement? && e.id !in t.leases
    ensures Settle(t, e.now, e.id, e.kind, e.dbMs) == t
  {
  }

  /** The clock alone makes no difference to what is said. */
  lemma FromTick(g: Gov, e: Event)
    requires e.Settlement? && e.id in g.leases
    ensures SettledInto(Tick(g, e.now), Next(g, e), e) ==> SettledInto(g, Next(g, e), e)
  {
    hide Settle, Points;
  }

  lemma FreeOutcome(t: Gov, e: Event)
    requires e.Settlement? && e.id in t.leases && !DbTouched(e.kind, e.dbMs)
    requires RefundHasCounts(t, e.id, Settled(e.kind, e.dbMs))
    ensures SettledInto(t, Settle(t, e.now, e.id, e.kind, e.dbMs), e)
  {
    var l := t.leases[e.id];
    RefundsAre(l, e.kind, e.dbMs);
    ClosedRows(t, e.id, e.kind, e.dbMs);
    hide Close, RefundHasCounts;
    assert AtTwoCu(0) == 0.0;
    assert l.day in t.days by { HasDay(t, e.id, Settled(e.kind, e.dbMs)); }
  }

  lemma HasDay(t: Gov, id: LeaseId, e: Ending)
    requires id in t.leases && RefundHasCounts(t, id, e)
    ensures t.leases[id].day in t.days
  {
  }

  lemma RefundsAre(l: Lease, kind: SettleKind, dbMs: Option<int>)
    ensures RefundsCounts(l, Settled(kind, dbMs)) <==> GivesBack(l.lookup, kind, dbMs)
    ensures RefundsPrefix(l, Settled(kind, dbMs)) <==> GivesShareBack(l.lookup, kind)
    ensures DbTouched(kind, dbMs) <==> Costs(kind, dbMs)
  {
  }

  /** The rows once the lease has left, without the clamps at zero. */
  lemma ClosedRows(t: Gov, id: LeaseId, kind: SettleKind, dbMs: Option<int>)
    requires id in t.leases && RefundHasCounts(t, id, Settled(kind, dbMs))
    ensures var l, closed := t.leases[id], Close(t, id, Settled(kind, dbMs));
            var back, share := One(GivesBack(l.lookup, kind, dbMs)), One(GivesShareBack(l.lookup, kind));
            var d, n := t.days[l.day], NetworkOf(l);
            && closed.days == t.days[l.day := d.(admitted := d.admitted - back, heavy := d.heavy - back * l.heavy,
                                                 refunded := d.refunded + back)]
            && closed.prefixes == (if n !in t.prefixes then t.prefixes
                                   else t.prefixes[n := t.prefixes[n].(count := t.prefixes[n].count - share)])
            && closed.leases == t.leases - {id} && closed.row == t.row && closed.hist.ledger == t.hist.ledger
  {
    var l := t.leases[id];
    RefundsAre(l, kind, dbMs);
    assert 0 * l.heavy == 0 && 1 * l.heavy == l.heavy;
    hide GivesBack, GivesShareBack, RefundsCounts, RefundsPrefix;
    if !RefundsCounts(l, Settled(kind, dbMs)) {
      assert t.days == t.days[l.day := t.days[l.day]];
    }
  }

  lemma ChargingOutcome(t: Gov, e: Event)
    requires Good(t) && t.hist.clock == e.now && e.Settlement? && e.id in t.leases && DbTouched(e.kind, e.dbMs)
    requires RefundHasCounts(t, e.id, Settled(e.kind, e.dbMs))
    ensures SettledInto(t, Settle(t, e.now, e.id, e.kind, e.dbMs), e)
  {
    hide Good, Holds, Close, Load, RefundHasCounts, ChargeFor, Bill, Charged, RowsSettled, BeganAt, Costs, DbTouched,
         Points,
         AtTwoCu, GivesBack, GivesShareBack, Stored, DbStart;
    var l, closed, st := t.leases[e.id], Close(t, e.id, Settled(e.kind, e.dbMs)), Load(t.row, e.now);
    HasDay(t, e.id, Settled(e.kind, e.dbMs));
    RefundsAre(l, e.kind, e.dbMs);
    ClosedRows(t, e.id, e.kind, e.dbMs);
    LoadHolds(t);
    var w, start, horizon := Live(closed, st), DbStart(l.admittedAt, e.now, e.dbMs), e.now - LEASE_TTL_MS;
    var c := ChargeFor(w, e.id, l, start, e.now, horizon);
    Began(l.admittedAt, e.now, e.dbMs);
    ChargeIs(w, e.id, l, start, e.now, horizon);
    BilledRows(w, c, horizon);
    var g' := Settle(t, e.now, e.id, e.kind, e.dbMs);
    SavedStored(Bill(w, c, horizon));
    ChargedBy(t, g', e, l, c);
    SettledRows(t, g', e, l, c);
  }

  lemma SavedStored(w: Live)
    ensures Stored(Save(w.g, w.st)) == w.st
  {
  }

  lemma ChargeIs(w: Live, id: LeaseId, l: Lease, start: int, end: int, keepAfter: int)
    ensures var c := ChargeFor(w, id, l, start, end, keepAfter);
            && c.id == id && c.lease == l && c.window == Interval(start, end + 300_000)
            && c.addedMs == |Span(start, end + 300_000) - Points(w.st.charged)|
  {
    hide AddCharged, LateMs, LostMs, Cover;
  }

  lemma ChargedBy(t: Gov, g': Gov, e: Event, l: Lease, c: Charge)
    requires e.Settlement? && g'.hist.ledger == t.hist.ledger + [c] && c.id == e.id && c.lease == l
    requires BeganAt(c.window.start, l.admittedAt, e.now, e.dbMs) && c.window.end == e.now + 300_000
    requires c.addedMs == |Span(c.window.start, c.window.end) - Points(Stored(t).charged)|
    requires Stored(g').cuTotalS == Stored(t).cuTotalS + AtTwoCu(c.addedMs)
    requires Stored(g').egressTotal == Stored(t).egressTotal + l.egress
    ensures Charged(t, g', e, l)
  {
    hide Points, Stored, AtTwoCu, BeganAt;
  }

  lemma SettledRows(t: Gov, g': Gov, e: Event, l: Lease, c: Charge)
    requires e.Settlement? && l.day in t.days && Costs(e.kind, e.dbMs)
    requires g'.hist.ledger == t.hist.ledger + [c]
    requires var back, cuS := One(GivesBack(l.lookup, e.kind, e.dbMs)), AtTwoCu(c.addedMs);
             var d := t.days[l.day];
             g'.days == t.days[l.day := DayRow(d.admitted - back, d.heavy - back * l.heavy, d.cuS + cuS,
                                               d.egress + l.egress,
                                               d.refunded + back, d.lookups)]
    requires var share, cuS, n := One(GivesShareBack(l.lookup, e.kind)), AtTwoCu(c.addedMs), NetworkOf(l);
             g'.prefixes == if n !in t.prefixes then t.prefixes
                            else t.prefixes[n := PrefixRow(t.prefixes[n].count - share, t.prefixes[n].attempts,
                                                           t.prefixes[n].cuS + cuS, t.prefixes[n].lookups)]
    ensures RowsSettled(t, g', e, l)
  {
    hide GivesBack, GivesShareBack, Costs, AtTwoCu;
    assert BilledNow(t, g') == c.addedMs;
  }

  lemma Began(admittedAt: int, now: int, dbMs: Option<int>)
    ensures BeganAt(DbStart(admittedAt, now, dbMs), admittedAt, now, dbMs)
  {
  }

  lemma BilledRows(w: Live, c: Charge, keepAfter: int)
    requires c.lease.day in w.g.days
    ensures var b, l := Bill(w, c, keepAfter), c.lease;
            var d, n, cuS := w.g.days[l.day], NetworkOf(l), AtTwoCu(c.addedMs);
            && b.g.days == w.g.days[l.day := d.(cuS := d.cuS + cuS, egress := d.egress + l.egress)]
            && b.g.prefixes == (if n !in w.g.prefixes then w.g.prefixes
                                else w.g.prefixes[n := w.g.prefixes[n].(cuS := w.g.prefixes[n].cuS + cuS)])
            && b.g.leases == w.g.leases && b.g.hist.ledger == w.g.hist.ledger + [c]
            && b.st.cuTotalS == w.st.cuTotalS + cuS && b.st.egressTotal == w.st.egressTotal + l.egress
  {
    hide AddCharged;
  }

  // ----- expiry -----

  /** The leases whose settle has not come for over ten minutes, each once, oldest first. */
  ghost predicate ListsOverdue(leases: map<LeaseId, Lease>, now: int, order: seq<LeaseId>) {
    && (forall id :: id in order <==> id in leases && leases[id].admittedAt < now - 600_000)
    && (forall i, j :: 0 <= i < j < |order| ==> order[i] != order[j])
    && (forall i, j :: 0 <= i < j < |order| && order[i] in leases && order[j] in leases ==>
          leases[order[i]].admittedAt <= leases[order[j]].admittedAt)
  }

  /** The ledger grows by a charge for each of these leases, in this order, for its 90 s and the idle tail. */
  ghost predicate ChargedInFull(before: seq<Charge>, after: seq<Charge>, leases: map<LeaseId, Lease>,
                                order: seq<LeaseId>) {
    && |after| == |before| + |order| && before <= after
    && forall i :: 0 <= i < |order| ==>
         var c := after[|before| + i];
         && c.id == order[i] && order[i] in leases && c.lease == leases[order[i]]
         && c.window == Interval(c.lease.admittedAt, c.lease.admittedAt + 390_000)
  }

  lemma StaleIsOverdue(leases: map<LeaseId, Lease>, now: int, order: seq<LeaseId>)
    requires StaleOrder(leases, now, order)
    ensures ListsOverdue(leases, now, order)
  {
  }

  lemma ExpiryIsInFull(w: Live, id: LeaseId, horizon: int)
    requires id in w.g.leases
    ensures var c, l := ExpiryCharge(w, id, horizon), w.g.leases[id];
            && c.id == id && c.lease == l && c.window == Interval(l.admittedAt, l.admittedAt + 390_000)
            && ExpireOne(w, id, horizon).g.hist.ledger == w.g.hist.ledger + [c]
  {
    hide AddedMs, LateMs, LostMs, AddCharged, Cover;
  }

  lemma {:induction false} EachIsInFull(w: Live, order: seq<LeaseId>, horizon: int)
    requires Holds(w)
    requires forall i :: 0 <= i < |order| ==> order[i] in w.g.leases
    requires forall i, j :: 0 <= i < j < |order| ==> order[i] != order[j]
    ensures ChargedInFull(w.g.hist.ledger, ExpireEach(w, order, horizon).g.hist.ledger, w.g.leases, order)
  {
    hide Holds, ExpireOne, OnlyExpired, ExpiryCharge;
    if order != [] {
      var n := |order| - 1;
      var w1 := ExpireEach(w, order[..n], horizon);
      EachIsInFull(w, order[..n], horizon);
      ExpireEachHolds(w, order[..n], horizon);
      assert order[n] !in Ids(order[..n]);
      ExpiryIsInFull(w1, order[n], horizon);
      OneMoreInFull(w.g.hist.ledger, w1.g.hist.ledger, ExpiryCharge(w1, order[n], horizon), w.g.leases, order);
    }
  }

  lemma OneMoreInFull(before: seq<Charge>, mid: seq<Charge>, c: Charge, leases: map<LeaseId, Lease>,
                      order: seq<LeaseId>)
    requires order != [] && ChargedInFull(before, mid, leases, order[..|order| - 1])
    requires c.id == order[|order| - 1] && c.id in leases && c.lease == leases[c.id]
    requires c.window == Interval(c.lease.admittedAt, c.lease.admittedAt + 390_000)
    ensures ChargedInFull(before, mid + [c], leases, order)
  {
    var after := mid + [c];
    forall i | 0 <= i < |order|
      ensures var x := after[|before| + i];
              && x.id == order[i] && order[i] in leases && x.lease == leases[order[i]]
              && x.window == Interval(x.lease.admittedAt, x.lease.admittedAt + 390_000)
    {
      if i < |order| - 1 {
        assert order[..|order| - 1][i] == order[i] && after[|before| + i] == mid[|before| + i];
      }
    }
  }

  lemma ExpireIsInFull(w: Live, now: int, order: seq<LeaseId>)
    requires Holds(w) && StaleOrder(w.g.leases, now, order)
    ensures var w' := Expire(w, now, order);
            && ListsOverdue(w.g.leases, now, order)
            && ChargedInFull(w.g.hist.ledger, w'.g.hist.ledger, w.g.leases, order)
            && forall id :: id in w'.g.leases <==> id in w.g.leases && w.g.leases[id].admittedAt >= now - 600_000
  {
    hide Holds, StaleOrder, ExpireEach, OnlyExpired, EndingAfter, ListsOverdue, ChargedInFull;
    StaleIsOverdue(w.g.leases, now, order);
    StaleOrderIds(w.g.leases, now, order);
    ExpireHolds(w, now, order);
    RemainingLeases(w.g.leases, now, order);
    if order == [] {
      NoneInFull(w);
    } else {
      EachIsInFull(w, order, w.g.leases[order[0]].admittedAt);
    }
  }

  lemma NoneInFull(w: Live)
    ensures ChargedInFull(w.g.hist.ledger, w.g.hist.ledger, w.g.leases, [])
  {
  }

  lemma RemainingLeases(leases: map<LeaseId, Lease>, now: int, order: seq<LeaseId>)
    requires ListsOverdue(leases, now, order)
    ensures forall id :: id in leases - Ids(order) <==> id in leases && leases[id].admittedAt >= now - 600_000
  {
  }

  /** An alarm charges every overdue lease in full, and keeps the others. */
  lemma AlarmExpires(g: Gov, e: Event)
    requires Good(g) && Possible(g, e) && e.Alarm?
    ensures var g' := Next(g, e);
            && ListsOverdue(g.leases, e.now, e.order)
            && ChargedInFull(g.hist.ledger, g'.hist.ledger, g.leases, e.order)
            && forall id :: id in g'.leases <==> id in g.leases && g.leases[id].admittedAt >= e.now - 600_000
  {
    hide Good, Holds, StaleOrder, Expire, ListsOverdue, ChargedInFull, Load, PollDue, Schedule;
    var t := Tick(g, e.now);
    TickIsGood(g, e.now);
    LoadHolds(t);
    LoadedTimes(t);
    var st := Load(t.row, e.now);
    TimesHold(Live(t, st), st.(alarmAt := None));
    ExpireIsInFull(Live(t, st.(alarmAt := None)), e.now, e.order);
  }

  // ----- what an instance finds -----

  /** Day `d` has begun at `t`. */
  predicate Begun(d: Day, t: int) { d * 86_400_000 <= t }

  /** Starting on any stored rows keeps exactly those the program could have written by then. */
  lemma StartKeepsThePossible(g: Gov, now: int)
    ensures var r := Restart(g, now);
            && (forall d :: d in r.days <==> d in g.days && Begun(d, now))
            && (forall n :: n in r.prefixes <==> n in g.prefixes && Begun(n.day, now))
            && (forall id :: id in r.leases <==>
                  id in g.leases
                  && var l := g.leases[id];
                     && l.admittedAt <= now && Begun(l.day, l.admittedAt) && !Begun(l.day + 1, l.admittedAt)
                     && 0 <= l.egress <= 524_288 && l.heavy in {0, 1} && l.lookup in {0, 1})
            && (forall d :: d in r.days ==> r.days[d] == g.days[d])
            && (forall n :: n in r.prefixes ==> r.prefixes[n] == g.prefixes[n])
            && (forall id :: id in r.leases ==> r.leases[id] == g.leases[id])
            && r.row == g.row
  {
    forall d: int, t: int ensures Begun(d, t) <==> d <= DayOf(t) {
    }
    hide Begun, DayOf;
  }
}
