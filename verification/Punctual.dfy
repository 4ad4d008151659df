/** Runs whose settlements come in time: nothing slips, and every instant is charged once. */
module Punctual {
  import opened Budget
  import opened GovernorModel
  import opened Accounts
  import opened Reserves
  import opened Sanitizer
  import opened Invariant
  import opened Events

  /** The event settles a live lease with a charge. */
  predicate SettlesWithCharge(g: Gov, e: Event) {
    e.Settlement? && e.id in g.leases && DbTouched(e.kind, e.dbMs)
  }

  /** A settlement finds no lease whose expiry is overdue. */
  ghost predicate NoneOverdue(g: Gov, e: Event) {
    SettlesWithCharge(g, e) ==> NoneStale(g.leases, e.now)
  }

  /** A settlement comes within the API's deadline of its admission. */
  predicate InTime(g: Gov, e: Event) {
    SettlesWithCharge(g, e) ==> e.now <= g.leases[e.id].admittedAt + PROVISIONAL_BUSY_MS
  }

  ghost predicate NeverOverdue(neonKey: bool, run: seq<Event>) {
    run == [] || (NeverOverdue(neonKey, run[..|run| - 1])
                  && NoneOverdue(After(neonKey, run[..|run| - 1]), run[|run| - 1]))
  }

  ghost predicate AlwaysInTime(neonKey: bool, run: seq<Event>) {
    run == [] || (AlwaysInTime(neonKey, run[..|run| - 1]) && InTime(After(neonKey, run[..|run| - 1]), run[|run| - 1]))
  }

  /** No charge was late. */
  predicate NoneLate(ledger: seq<Charge>) {
    forall i :: 0 <= i < |ledger| ==> ledger[i].lateMs == 0
  }

  /** No trim lost a window a live lease still covers, and every instant was charged once. */
  ghost predicate NothingLost(w: Live) {
    && (forall i :: 0 <= i < |w.g.hist.ledger| ==> w.g.hist.ledger[i].lostMs == 0)
    && ChargedOnce(w.g.leases, w.g.hist.ledger, w.st.charged, w.g.hist.clock)
  }

  // ----- one charge -----

  lemma BillLosesNothing(w: Live, e: Ending, c: Charge, keepAfter: int)
    requires NothingLost(w) && Charges(w) && IsCharge(w, c, keepAfter)
    requires c.lease.admittedAt <= c.window.start && keepAfter <= w.g.hist.clock
    requires forall id :: id in w.g.leases && id != c.id ==> keepAfter <= w.g.leases[id].admittedAt
    ensures NothingLost(EndAndBill(w, e, c, keepAfter))
  {
    hide CeilingsHold, EgressHolds, TotalsAccounted, ChargesCover, AddedMs, LateMs, LostMs;
    NotLost(w.st.charged, c.window, keepAfter, w.g.leases - {c.id});
    BillKeepsChargedOnce(w.g.leases, w.g.hist.ledger, w.st.charged, w.g.hist.clock, c, keepAfter);
  }

  lemma BillIsNotLate(w: Live, e: Ending, c: Charge, keepAfter: int)
    requires NoneLate(w.g.hist.ledger) && IsCharge(w, c, keepAfter)
    requires c.lease.admittedAt <= c.window.start
             && c.window.end <= c.lease.admittedAt + PROVISIONAL_BUSY_MS + NEON_IDLE_TAIL_MS
    ensures NoneLate(EndAndBill(w, e, c, keepAfter).g.hist.ledger)
  {
    hide AddedMs, LateMs, LostMs;
    NotLate(w.st.charged, c.lease, c.window);
  }

  // ----- expiry -----

  lemma ExpireOneLosesNothing(w: Live, id: LeaseId, horizon: int)
    requires Holds(w) && NothingLost(w) && id in w.g.leases && horizon <= w.g.hist.clock
    requires forall other :: other in w.g.leases ==> horizon <= w.g.leases[other].admittedAt
    ensures NothingLost(ExpireOne(w, id, horizon))
  {
    hide Tables, Charges, Row, NothingLost, IsCharge, ExpiryCharge, ExpireOne, EndAndBill;
    ExpireOneIs(w, id, horizon);
    BillLosesNothing(w, Expired, ExpiryCharge(w, id, horizon), horizon);
  }

  lemma ExpireOneIsNotLate(w: Live, id: LeaseId, horizon: int)
    requires NoneLate(w.g.hist.ledger) && id in w.g.leases
    ensures NoneLate(ExpireOne(w, id, horizon).g.hist.ledger)
  {
    hide NoneLate, IsCharge, ExpiryCharge, ExpireOne, EndAndBill;
    ExpireOneIs(w, id, horizon);
    BillIsNotLate(w, Expired, ExpiryCharge(w, id, horizon), horizon);
  }

  lemma {:induction false} ExpireEachLosesNothing(w: Live, order: seq<LeaseId>, horizon: int)
    requires Holds(w) && NothingLost(w) && horizon <= w.g.hist.clock
    requires forall i :: 0 <= i < |order| ==> order[i] in w.g.leases
    requires forall i, j :: 0 <= i < j < |order| ==> order[i] != order[j]
    requires forall other :: other in w.g.leases ==> horizon <= w.g.leases[other].admittedAt
    ensures NothingLost(ExpireEach(w, order, horizon))
  {
    hide Holds, NothingLost, ExpireOne, OnlyExpired;
    if order != [] {
      var n := |order| - 1;
      var w1 := ExpireEach(w, order[..n], horizon);
      ExpireEachLosesNothing(w, order[..n], horizon);
      ExpireEachHolds(w, order[..n], horizon);
      ExpiredHistory(w, w1);
      assert order[n] !in Ids(order[..n]);
      ExpireOneLosesNothing(w1, order[n], horizon);
    }
  }

  lemma {:induction false} ExpireEachIsNotLate(w: Live, order: seq<LeaseId>, horizon: int)
    requires NoneLate(w.g.hist.ledger)
    ensures NoneLate(ExpireEach(w, order, horizon).g.hist.ledger)
  {
    hide NoneLate;
    if order != [] {
      var n := |order| - 1;
      var w1 := ExpireEach(w, order[..n], horizon);
      ExpireEachIsNotLate(w, order[..n], horizon);
      if order[n] in w1.g.leases {
        hide ExpireOne;
        ExpireOneIsNotLate(w1, order[n], horizon);
      }
    }
  }

  lemma OldestFirst(leases: map<LeaseId, Lease>, now: int, order: seq<LeaseId>)
    requires StaleOrder(leases, now, order) && order != []
    ensures forall id :: id in leases ==> leases[order[0]].admittedAt <= leases[id].admittedAt
    ensures leases[order[0]].admittedAt < now - LEASE_TTL_MS
  {
    forall id | id in leases ensures leases[order[0]].admittedAt <= leases[id].admittedAt {
      if IsStale(leases[id], now) {
        var i :| 0 <= i < |order| && order[i] == id;
      }
    }
  }

  lemma TrimLosesNothing(w: Live, keepAfter: int)
    requires NothingLost(w) && keepAfter <= w.g.hist.clock
    requires forall id :: id in w.g.leases ==> keepAfter <= w.g.leases[id].admittedAt
    ensures NothingLost(Live(w.g, Trim(w.st, keepAfter)))
  {
    hide ChargedOnce;
    TrimKeepsChargedOnce(w.g.leases, w.g.hist.ledger, w.st.charged, w.g.hist.clock, keepAfter);
  }

  lemma StaleOrderIds(leases: map<LeaseId, Lease>, now: int, order: seq<LeaseId>)
    requires StaleOrder(leases, now, order)
    ensures forall i :: 0 <= i < |order| ==> order[i] in leases
    ensures forall i, j :: 0 <= i < j < |order| ==> order[i] != order[j]
  {
  }

  /** Expiry keeps its windows until every stale lease is in, and so charges each instant once. */
  lemma ExpireLosesNothing(w: Live, now: int, order: seq<LeaseId>)
    requires Holds(w) && NothingLost(w) && StaleOrder(w.g.leases, now, order) && w.g.hist.clock == now
    ensures NothingLost(Expire(w, now, order))
  {
    hide Holds, NothingLost, StaleOrder, ExpireEach, OnlyExpired;
    if order != [] {
      StaleOrderIds(w.g.leases, now, order);
      OldestFirst(w.g.leases, now, order);
      OrderTakesTheStale(w.g.leases, now, order);
      var horizon := w.g.leases[order[0]].admittedAt;
      var each := ExpireEach(w, order, horizon);
      ExpireEachHolds(w, order, horizon);
      ExpiredHistory(w, each);
      ExpireEachLosesNothing(w, order, horizon);
      TrimLosesNothing(each, now - LEASE_TTL_MS);
    }
  }

  lemma ExpireIsNotLate(w: Live, now: int, order: seq<LeaseId>)
    requires NoneLate(w.g.hist.ledger)
    ensures NoneLate(Expire(w, now, order).g.hist.ledger)
  {
    hide NoneLate, ExpireEach;
    if order != [] && order[0] in w.g.leases {
      ExpireEachIsNotLate(w, order, w.g.leases[order[0]].admittedAt);
    }
  }

  // ----- the events -----

  /** Nothing is lost between events. */
  ghost predicate Lossless(g: Gov) {
    NothingLost(Live(g, Stored(g)))
  }

  /** What neither charges nor issues keeps it. */
  lemma LosslessReads(w: Live, w': Live)
    requires NothingLost(w)
    requires w'.g.leases == w.g.leases && w'.g.hist.ledger == w.g.hist.ledger && w'.st.charged == w.st.charged
    requires w.g.hist.clock <= w'.g.hist.clock
    ensures NothingLost(w')
  {
  }

  lemma LoadKeepsWindows(g: Gov)
    requires Good(g)
    ensures Load(g.row, g.hist.clock).charged == Stored(g).charged
  {
    hide Holds;
    LoadHolds(g);
  }

  lemma IssueLosesNothing(w: Live, id: LeaseId, l: Lease)
    requires NothingLost(w) && id !in w.g.leases && l.admittedAt == w.g.hist.clock
    ensures NothingLost(Live(Issue(w.g, id, l), w.st))
  {
    hide Points;
  }

  lemma AdmitLosesNothing(w: Live, now: int, id: LeaseId, l: Lease)
    requires NothingLost(w) && id !in w.g.leases && l.admittedAt == w.g.hist.clock
    ensures Lossless(Admit(w, now, id, l))
  {
    hide NothingLost;
    IssueLosesNothing(w, id, l);
    var g' := Admit(w, now, id, l);
    LosslessReads(Live(Issue(w.g, id, l), w.st), Live(g', Stored(g')));
  }

  lemma FreshIsNotLive(g: Gov, id: LeaseId)
    requires Good(g) && id !in g.hist.issued
    ensures id !in g.leases
  {
    hide Charges, Row;
  }

  lemma RequestLosesNothing(g: Gov, now: int, id: LeaseId, l: Lease, order: seq<LeaseId>)
    requires Good(g) && Lossless(g) && g.hist.clock == now && StaleOrder(g.leases, now, order)
    requires id !in g.hist.issued && l.admittedAt == now
    ensures Lossless(Admission(g, now, id, l, order).g)
  {
    hide Good, Holds, NothingLost, StaleOrder, Expire, OnlyExpired, CountDenial, ComputeDenial, Admit, NoneStale, Load;
    var loaded := Live(g, Load(g.row, now));
    LoadHolds(g);
    LoadKeepsWindows(g);
    LosslessReads(Live(g, Stored(g)), loaded);
    ExpireLosesNothing(loaded, now, order);
    ExpireForRequest(g, now, order);
    var w := Expire(loaded, now, order);
    ExpiredHistory(loaded, w);
    var g1 := if order == [] then g else Save(w.g, w.st);
    if order != [] {
      LosslessReads(w, Live(g1, Stored(g1)));
    }
    LosslessReads(w, Live(g1, w.st));
    FreshIsNotLive(g1, id);
    if CountDenial(g, now, l).None? && ComputeDenial(g1, w.st, now, l.prefix, l.egress).None? {
      AdmitLosesNothing(Live(g1, w.st), now, id, l);
    }
  }

  /** The charge a settlement makes. */
  ghost function SettlementCharge(g: Gov, now: int, id: LeaseId, kind: SettleKind, dbMs: Option<int>): Charge
    requires id in g.leases
  {
    var l := g.leases[id];
    ChargeFor(Live(Close(g, id, Settled(kind, dbMs)), Load(g.row, now)), id, l, DbStart(l.admittedAt, now, dbMs), now,
              now - LEASE_TTL_MS)
  }

  lemma SettleIs(g: Gov, now: int, id: LeaseId, kind: SettleKind, dbMs: Option<int>)
    requires id in g.leases && DbTouched(kind, dbMs)
    ensures var w, c, l := Live(g, Load(g.row, now)), SettlementCharge(g, now, id, kind, dbMs), g.leases[id];
            && IsCharge(w, c, now - LEASE_TTL_MS) && c.id == id && c.lease == l
            && c.window == Window(DbStart(l.admittedAt, now, dbMs), now)
            && l.admittedAt <= c.window.start
            && (var billed := EndAndBill(w, Settled(kind, dbMs), c, now - LEASE_TTL_MS);
                Settle(g, now, id, kind, dbMs) == Save(billed.g, billed.st))
  {
    hide AddedMs, LateMs, LostMs, AddCharged, Cover, Load;
  }

  lemma SettleLosesNothing(g: Gov, now: int, id: LeaseId, kind: SettleKind, dbMs: Option<int>)
    requires Good(g) && Lossless(g) && g.hist.clock == now
    requires id in g.leases && DbTouched(kind, dbMs) && NoneStale(g.leases, now)
    ensures Lossless(Settle(g, now, id, kind, dbMs))
  {
    hide Good, Tables, Charges, Row, NothingLost, IsCharge, SettlementCharge, Settle, EndAndBill, Load;
    var w, c := Live(g, Load(g.row, now)), SettlementCharge(g, now, id, kind, dbMs);
    LoadHolds(g);
    LoadKeepsWindows(g);
    LosslessReads(Live(g, Stored(g)), w);
    SettleIs(g, now, id, kind, dbMs);
    BillLosesNothing(w, Settled(kind, dbMs), c, now - LEASE_TTL_MS);
    var billed := EndAndBill(w, Settled(kind, dbMs), c, now - LEASE_TTL_MS);
    LosslessReads(billed, Live(Save(billed.g, billed.st), billed.st));
  }

  lemma CloseLosesNothing(g: Gov, now: int, id: LeaseId, kind: SettleKind, dbMs: Option<int>)
    requires Lossless(g) && !(id in g.leases && DbTouched(kind, dbMs))
    ensures Lossless(Settle(g, now, id, kind, dbMs))
  {
    hide Points;
  }

  lemma AlarmLosesNothing(g: Gov, now: int, order: seq<LeaseId>)
    requires Good(g) && Lossless(g) && g.hist.clock == now && StaleOrder(g.leases, now, order)
    ensures Lossless(AlarmStart(g, now, order))
  {
    hide Good, Holds, NothingLost, StaleOrder, Expire, Load, PollDue, NoneStale;
    var loaded := Live(g, Load(g.row, now).(alarmAt := None));
    LoadHolds(g);
    LoadKeepsWindows(g);
    LosslessReads(Live(g, Stored(g)), loaded);
    LoadedTimes(g);
    TimesHold(Live(g, Load(g.row, now)), loaded.st);
    ExpireLosesNothing(loaded, now, order);
    var w, g' := AlarmWork(g, now, order), AlarmStart(g, now, order);
    LosslessReads(Expire(loaded, now, order), w);
    AlarmWorkHolds(g, now, order);
    if !PollDue(w.g, w.st, now) {
      SavedWindows(w);
    }
    LosslessReads(w, Live(g', Stored(g')));
  }

  lemma LoadedTimes(g: Gov)
    requires Good(g)
    ensures var st := Load(g.row, g.hist.clock);
            0 <= st.lastAdmitAt <= g.hist.clock && 0 <= st.lastPollAt <= g.hist.clock
  {
    hide Tables, Charges;
    LoadHolds(g);
    RowTimes(Live(g, Load(g.row, g.hist.clock)));
  }

  lemma SavedWindows(w: Live)
    requires Holds(w)
    ensures Load(Some(w.st), w.g.hist.clock).charged == w.st.charged
  {
    hide Holds;
    SaveIsGood(w);
    LoadKeepsWindows(Save(w.g, w.st));
  }

  lemma PollEndLosesNothing(g: Gov, now: int, polledAt: int, r: PollResult)
    requires Good(g) && Lossless(g) && g.hist.clock == now && polledAt in g.hist.polls
    ensures Lossless(AlarmFinish(g, now, polledAt, r))
  {
    hide Good, Holds, NothingLost, Load, Applies, ApplyPoll, NeonClean;
    var w, g' := PollApplied(g, now, polledAt, r), AlarmFinish(g, now, polledAt, r);
    LoadHolds(g);
    LoadKeepsWindows(g);
    PollAppliedHolds(g, now, polledAt, r);
    SavedWindows(w);
    ApplyKeepsWindows(g, Load(g.row, now), now, polledAt, r);
    LosslessReads(Live(g, Stored(g)), Live(g', Stored(g')));
  }

  lemma ApplyKeepsWindows(g: Gov, st: StateRow, now: int, polledAt: int, r: PollResult)
    ensures ApplyPoll(g, st, now, polledAt, r).charged == st.charged
  {
  }

  lemma NextLosesNothing(g: Gov, e: Event)
    requires Good(g) && Possible(g, e) && Lossless(g) && NoneOverdue(g, e)
    ensures Lossless(Next(g, e))
  {
    hide Good, NothingLost, Admission, Settle, AlarmStart, AlarmFinish, Restart, StaleOrder, NoneStale;
    var t := Tick(g, e.now);
    TickIsGood(g, e.now);
    LosslessReads(Live(g, Stored(g)), Live(t, Stored(t)));
    match e
    case Request(now, id, l, order) => RequestLosesNothing(t, now, id, l, order);
    case Settlement(now, id, kind, dbMs) =>
      if id in g.leases && DbTouched(kind, dbMs) {
        SettleLosesNothing(t, now, id, kind, dbMs);
      } else {
        CloseLosesNothing(t, now, id, kind, dbMs);
      }
    case Alarm(now, order) => AlarmLosesNothing(t, now, order);
    case PollEnds(now, polledAt, r) => PollEndLosesNothing(t, now, polledAt, r);
    case Starts(now) => RestartIsNothing(t, now);
  }

  lemma {:induction false} RunsLoseNothing(neonKey: bool, run: seq<Event>)
    requires IsRun(neonKey, run) && NeverOverdue(neonKey, run)
    ensures Lossless(After(neonKey, run))
  {
    hide Good, Lossless, Next, Possible, NoneOverdue;
    if run == [] {
      NothingToLose(neonKey);
    } else {
      var n := |run| - 1;
      RunsLoseNothing(neonKey, run[..n]);
      RunsAreGood(neonKey, run[..n]);
      NextLosesNothing(After(neonKey, run[..n]), run[n]);
    }
  }

  lemma NothingToLose(neonKey: bool)
    ensures Lossless(Start(neonKey))
  {
  }

  // ----- lateness -----

  lemma SettleIsNotLate(g: Gov, now: int, id: LeaseId, kind: SettleKind, dbMs: Option<int>)
    requires NoneLate(g.hist.ledger) && InTime(g, Settlement(now, id, kind, dbMs))
    ensures NoneLate(Settle(g, now, id, kind, dbMs).hist.ledger)
  {
    if id in g.leases && DbTouched(kind, dbMs) {
      hide NoneLate, IsCharge, SettlementCharge, Settle, EndAndBill, Load;
      SettleIs(g, now, id, kind, dbMs);
      BillIsNotLate(Live(g, Load(g.row, now)), Settled(kind, dbMs), SettlementCharge(g, now, id, kind, dbMs),
                    now - LEASE_TTL_MS);
    }
  }

  lemma NextIsNotLate(g: Gov, e: Event)
    requires NoneLate(g.hist.ledger) && InTime(g, e)
    ensures NoneLate(Next(g, e).hist.ledger)
  {
    hide NoneLate, Expire, Load, CountDenial, ComputeDenial, Settle, PollDue, Applies, ApplyPoll, Schedule;
    var t := Tick(g, e.now);
    match e
    case Request(now, id, l, order) => ExpireIsNotLate(Live(t, Load(t.row, now)), now, order);
    case Settlement(now, id, kind, dbMs) => SettleIsNotLate(t, now, id, kind, dbMs);
    case Alarm(now, order) => ExpireIsNotLate(Live(t, Load(t.row, now).(alarmAt := None)), now, order);
    case PollEnds(_, _, _) =>
    case Starts(_) =>
  }

  lemma {:induction false} RunsAreNotLate(neonKey: bool, run: seq<Event>)
    requires AlwaysInTime(neonKey, run)
    ensures NoneLate(After(neonKey, run).hist.ledger)
  {
    if run != [] {
      hide NoneLate, Next, InTime;
      var n := |run| - 1;
      RunsAreNotLate(neonKey, run[..n]);
      NextIsNotLate(After(neonKey, run[..n]), run[n]);
    }
  }
}
