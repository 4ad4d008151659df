/** What denials promise, and the alarm that keeps network rows from outliving their day. */
module RequestTheorems {
  import opened Budget
  import opened Pacing
  import opened GovernorModel
  import opened Accounts
  import opened Sanitizer
  import opened Invariant
  import opened Events

  // ----- denials -----

  /** The time a denial names is still to come, and its `Retry-After` reaches it without a second to spare. */
  predicate Honest(r: Result, now: int) {
    r.Denied? ==>
      && now < r.resumesAt
      && now + 1000 * r.retryAfterSeconds >= r.resumesAt
      && now + 1000 * (r.retryAfterSeconds - 1) < r.resumesAt
  }

  lemma DenyIsHonest(code: DenialCode, scope: DenialScope, budget: BudgetName, resumesAt: int, now: int)
    requires now < resumesAt
    ensures Honest(Deny(code, scope, budget, resumesAt, now), now)
  {
    SecondsReach(resumesAt, now);
    var s := SecondsUntil(resumesAt, now);
    assert s > 1 ==> now + 1000 * (s - 1) < resumesAt;
  }

  lemma MidnightDenialsAreHonest(now: int)
    ensures forall code, scope, budget :: Honest(Deny(code, scope, budget, NextUtcMidnight(now), now), now)
  {
    MidnightIsNext(now);
    forall code, scope, budget ensures Honest(Deny(code, scope, budget, NextUtcMidnight(now), now), now) {
      DenyIsHonest(code, scope, budget, NextUtcMidnight(now), now);
    }
  }

  lemma CountDenialIsHonest(g: Gov, now: int, l: Lease)
    ensures var d := CountDenial(g, now, l); d.Some? ==> d.value.Denied? && Honest(d.value, now)
  {
    hide Honest, Deny, SecondsUntil, NextUtcMidnight;
    MidnightDenialsAreHonest(now);
    DeniesAll(NextUtcMidnight(now), now);
  }

  lemma DeniesAll(at: int, now: int)
    ensures forall code, scope, budget :: Deny(code, scope, budget, at, now).Denied?
  {
  }

  lemma ComputeDenialIsHonest(g: Gov, st: StateRow, now: int, prefix: Prefix, egressBytes: int)
    requires Sound(st, now)
    ensures var d := ComputeDenial(g, st, now, prefix, egressBytes); d.Some? ==> d.value.Denied? && Honest(d.value, now)
  {
    hide UncoveredMs, EgressHeld, AllowedAt, PacingResumesAt, Exceeded, DailyCeilingS, MonthCuS, Honest, Deny,
         NextUtcMidnight, WindowsClean;
    MidnightDenialsAreHonest(now);
    DeniesAll(NextUtcMidnight(now), now);
    var neon := CurrentNeon(st, now, g.neonKey);
    if neon.Some? {
      var month := MonthCuS(st, neon.value, UncoveredMs(g, st, Everyone, ProvisionalInterval(now))) / 3600.0;
      var resumesAt := PacingResumesAt(month, neon.value.periodStart, neon.value.periodEnd);
      DenyIsHonest(CapacityPaused, MonthlyScope, Egress, neon.value.periodEnd, now);
      DeniesAll(neon.value.periodEnd, now);
      DeniesAll(resumesAt, now);
      if month > AllowedAt(now, neon.value.periodStart, neon.value.periodEnd) {
        ResumesLater(month, now, neon.value.periodStart, neon.value.periodEnd);
        DenyIsHonest(CapacityPaused, MonthlyScope, CuMonth, resumesAt, now);
      }
    }
  }

  /** Every request, on every run, is admitted under the id drawn for it or honestly denied. */
  lemma DenialsAreHonest(neonKey: bool, run: seq<Event>, e: Event)
    requires IsRun(neonKey, run + [e]) && e.Request?
    ensures var result := Admission(Tick(After(neonKey, run), e.now), e.now, e.id, e.lease, e.order).result;
            Honest(result, e.now) && (result.Admitted? ==> result.id == e.id)
  {
    assert (run + [e])[..|run|] == run;
    hide IsRun, After;
    RunsAreGood(neonKey, run);
    RequestIsHonest(Tick(After(neonKey, run), e.now), After(neonKey, run), e);
  }

  lemma RequestIsHonest(t: Gov, g: Gov, e: Event)
    requires Good(g) && Possible(g, e) && e.Request? && t == Tick(g, e.now)
    ensures var result := Admission(t, e.now, e.id, e.lease, e.order).result;
            Honest(result, e.now) && (result.Admitted? ==> result.id == e.id)
  {
    TickIsGood(g, e.now);
    hide Good, Tables, Charges, Sound, Honest, CountDenial, ComputeDenial, Expire, OnlyExpired, NoneStale, StaleOrder,
         Load, Admit;
    ExpireForRequest(t, e.now, e.order);
    var w := Expire(Live(t, Load(t.row, e.now)), e.now, e.order);
    var g1 := if e.order == [] then t else Save(w.g, w.st);
    ExpiredHistory(Live(t, Load(t.row, e.now)), w);
    CountDenialIsHonest(t, e.now, e.lease);
    ComputeDenialIsHonest(g1, w.st, e.now, e.lease.prefix, e.lease.egress);
    AdmittedIsHonest(e.id, e.now);
  }

  lemma AdmittedIsHonest(id: LeaseId, now: int)
    ensures Honest(Admitted(id), now)
  {
  }

  // ----- the midnight alarm -----

  /** Network rows are all of the purged day, and unless a poll is in flight an alarm is pending by its end. */
  ghost predicate AlarmKept(g: Gov) {
    g.prefixes != map[] && g.hist.polls == {} ==>
      var st := Stored(g);
      && st.purgedDay.Some? && st.alarmAt.Some?
      && st.alarmAt.value <= (st.purgedDay.value + 1) * DAY_MS
  }

  /** Every poll ends on the day it began. */
  predicate PollsStayInTheirDay(e: Event) {
    e.PollEnds? ==> DayOf(e.polledAt) == DayOf(e.now)
  }

  lemma ScheduledByMidnight(w: Live, now: int)
    requires w.g.prefixes != map[]
    ensures var st := Schedule(w, now); st.alarmAt.Some? && st.alarmAt.value <= (DayOf(now) + 1) * DAY_MS
  {
  }

  lemma ScheduleKeepsAlarm(w: Live, now: int)
    requires w.st.purgedDay == Some(DayOf(now))
    ensures AlarmKept(Save(w.g, Schedule(w, now)))
  {
    if w.g.prefixes != map[] {
      ScheduledByMidnight(w, now);
      hide WantedAlarm;
    }
  }

  /** An event that keeps the rows' keys, the purged day, the alarm and the polls keeps the alarm's promise. */
  lemma SameAlarm(g: Gov, g': Gov)
    requires AlarmKept(g) && g'.prefixes.Keys == g.prefixes.Keys && g'.hist.polls == g.hist.polls
    requires Stored(g').purgedDay == Stored(g).purgedDay && Stored(g').alarmAt == Stored(g).alarmAt
    ensures AlarmKept(g')
  {
    assert g'.prefixes == map[] <==> g'.prefixes.Keys == {};
    assert g.prefixes == map[] <==> g.prefixes.Keys == {};
  }

  /** Expiry keeps which networks have rows. */
  lemma ExpireOneKeepsKeys(w: Live, id: LeaseId, horizon: int)
    ensures ExpireOne(w, id, horizon).g.prefixes.Keys == w.g.prefixes.Keys
    ensures var w' := ExpireOne(w, id, horizon);
            w'.g.hist.polls == w.g.hist.polls && OnlyCharges(w.st, w'.st) && w'.g.row == w.g.row
  {
    hide ChargeFor;
  }

  lemma {:induction false} ExpireEachKeepsKeys(w: Live, order: seq<LeaseId>, horizon: int)
    ensures ExpireEach(w, order, horizon).g.prefixes.Keys == w.g.prefixes.Keys
    ensures var w' := ExpireEach(w, order, horizon);
            w'.g.hist.polls == w.g.hist.polls && OnlyCharges(w.st, w'.st) && w'.g.row == w.g.row
  {
    hide ExpireOne;
    if order != [] {
      ExpireEachKeepsKeys(w, order[..|order| - 1], horizon);
      ExpireOneKeepsKeys(ExpireEach(w, order[..|order| - 1], horizon), order[|order| - 1], horizon);
    }
  }

  lemma ExpireKeepsKeys(w: Live, now: int, order: seq<LeaseId>)
    ensures Expire(w, now, order).g.prefixes.Keys == w.g.prefixes.Keys
    ensures var w' := Expire(w, now, order);
            w'.g.hist.polls == w.g.hist.polls && OnlyCharges(w.st, w'.st) && w'.g.row == w.g.row
  {
    hide ExpireEach;
    if order != [] && order[0] in w.g.leases {
      ExpireEachKeepsKeys(w, order, w.g.leases[order[0]].admittedAt);
    }
  }

  lemma RequestKeepsAlarm(g: Gov, now: int, id: LeaseId, l: Lease, order: seq<LeaseId>)
    requires Good(g) && AlarmKept(g) && g.hist.clock == now
    ensures AlarmKept(Admission(g, now, id, l, order).g)
  {
    hide Holds, AlarmKept, Expire, CountDenial, ComputeDenial, Load, Schedule;
    LoadHolds(g);
    var loaded := Live(g, Load(g.row, now));
    var w := Expire(loaded, now, order);
    ExpireKeepsKeys(loaded, now, order);
    var g1 := if order == [] then g else Save(w.g, w.st);
    SameAlarm(g, g1);
    AdmitKeepsAlarm(Live(g1, w.st), now, id, l);
  }

  lemma AdmitKeepsAlarm(w: Live, now: int, id: LeaseId, l: Lease)
    ensures AlarmKept(Admit(w, now, id, l))
  {
    hide AlarmKept, Schedule, Issue;
    var st := if l.lookup == 1 then w.st else w.st.(lastAdmitAt := now);
    ScheduleKeepsAlarm(PurgeOnce(Live(Issue(w.g, id, l), st), now), now);
  }

  lemma SettleKeepsAlarm(g: Gov, now: int, id: LeaseId, kind: SettleKind, dbMs: Option<int>)
    requires Good(g) && AlarmKept(g) && g.hist.clock == now
    ensures AlarmKept(Settle(g, now, id, kind, dbMs))
  {
    hide Holds, AlarmKept, Load, ChargeFor;
    LoadHolds(g);
    SameAlarm(g, Settle(g, now, id, kind, dbMs));
  }

  lemma AlarmKeepsAlarm(g: Gov, now: int, order: seq<LeaseId>)
    requires Good(g) && g.hist.clock == now && StaleOrder(g.leases, now, order)
    ensures AlarmKept(AlarmStart(g, now, order))
  {
    hide Good, Holds, AlarmWork, Schedule, Load, PollDue, StaleOrder, NoneStale;
    var w := AlarmWork(g, now, order);
    AlarmWorkHolds(g, now, order);
    if !PollDue(w.g, w.st, now) {
      hide AlarmKept;
      SaveIsGood(w);
      LoadHolds(Save(w.g, w.st));
      ScheduleKeepsAlarm(Live(Save(w.g, w.st), Load(Some(w.st), now)), now);
    }
  }

  lemma PollEndKeepsAlarm(g: Gov, now: int, polledAt: int, r: PollResult)
    requires Good(g) && g.hist.clock == now && polledAt in g.hist.polls && DayOf(polledAt) == DayOf(now)
    ensures AlarmKept(AlarmFinish(g, now, polledAt, r))
  {
    PurgedToday(g, now, polledAt);
    hide AlarmKept, Good, Tables, Charges, Row, Schedule, Load, Applies, ApplyPoll;
    LoadHolds(g);
    var w := PollApplied(g, now, polledAt, r);
    PollAppliedHolds(g, now, polledAt, r);
    ApplyKeepsDay(g, Load(g.row, now), now, polledAt, r);
    SaveIsGood(w);
    LoadHolds(Save(w.g, w.st));
    ScheduleKeepsAlarm(Live(Save(w.g, w.st), Load(Some(w.st), now)), now);
  }

  lemma PurgedToday(g: Gov, now: int, polledAt: int)
    requires Good(g) && g.hist.clock == now && polledAt in g.hist.polls && DayOf(polledAt) == DayOf(now)
    ensures Stored(g).purgedDay == Some(DayOf(now))
  {
    hide Tables, Charges, Bridged;
  }

  lemma ApplyKeepsDay(g: Gov, st: StateRow, now: int, polledAt: int, r: PollResult)
    ensures ApplyPoll(g, st, now, polledAt, r).purgedDay == st.purgedDay
  {
  }

  lemma NextKeepsAlarm(g: Gov, e: Event)
    requires Good(g) && Possible(g, e) && AlarmKept(g) && PollsStayInTheirDay(e)
    ensures AlarmKept(Next(g, e))
  {
    hide Good, AlarmKept, Admission, Settle, AlarmStart, AlarmFinish, Restart, StaleOrder;
    var t := Tick(g, e.now);
    TickIsGood(g, e.now);
    SameAlarm(g, t);
    match e
    case Request(now, id, l, order) => RequestKeepsAlarm(t, now, id, l, order);
    case Settlement(now, id, kind, dbMs) => SettleKeepsAlarm(t, now, id, kind, dbMs);
    case Alarm(now, order) => AlarmKeepsAlarm(t, now, order);
    case PollEnds(now, polledAt, r) => PollEndKeepsAlarm(t, now, polledAt, r);
    case Starts(now) => RestartIsNothing(t, now);
  }

  /** Network rows never outlive their day: they carry the purged day as their day, which is not after
      today, and unless a poll is in flight an alarm is pending no later than that day's end. */
  lemma {:induction false} NetworkRowsEndWithTheirDay(neonKey: bool, run: seq<Event>)
    requires IsRun(neonKey, run)
    requires forall i :: 0 <= i < |run| ==> PollsStayInTheirDay(run[i])
    ensures var g := After(neonKey, run);
            && AlarmKept(g)
            && forall n :: n in g.prefixes ==> Stored(g).purgedDay == Some(n.day) && n.day <= DayOf(g.hist.clock)
  {
    if run == [] {
    } else {
      var n := |run| - 1;
      assert forall i :: 0 <= i < n ==> PollsStayInTheirDay(run[..n][i]);
      NetworkRowsEndWithTheirDay(neonKey, run[..n]);
      hide AlarmKept, Next, Possible, PollsStayInTheirDay;
      RunsAreGood(neonKey, run[..n]);
      NextKeepsAlarm(After(neonKey, run[..n]), run[n]);
      RunsAreGood(neonKey, run);
      RowsOfThePurgedDay(After(neonKey, run));
    }
  }

  lemma RowsOfThePurgedDay(g: Gov)
    requires Good(g)
    ensures forall n :: n in g.prefixes ==> Stored(g).purgedDay == Some(n.day) && n.day <= DayOf(g.hist.clock)
  {
    hide Charges, LeasesAccounted, DaysAccounted, NetworkRowIs;
  }

  /** After every admission, polls in flight or lost notwithstanding, an alarm is pending by the end of the day. */
  lemma AdmissionsArmTheAlarm(g: Gov, e: Event)
    requires Good(g) && Possible(g, e) && e.Request?
    requires Admission(Tick(g, e.now), e.now, e.id, e.lease, e.order).result.Admitted?
    ensures var st := Stored(Next(g, e));
            st.purgedDay == Some(DayOf(e.now)) && st.alarmAt.Some? && st.alarmAt.value <= (DayOf(e.now) + 1) * DAY_MS
  {
    hide Good, Load, Expire, CountDenial, ComputeDenial, StaleOrder, Schedule, DayOf;
    var t, l := Tick(g, e.now), e.lease;
    var w := Expire(Live(t, Load(t.row, e.now)), e.now, e.order);
    var g1 := if e.order == [] then t else Save(w.g, w.st);
    hide GovernorModel.Admit;
    DenialsAreDenied(t, e.now, l);
    ComputeDenialsAreDenied(g1, w.st, e.now, l.prefix, l.egress);
    assert Next(g, e) == GovernorModel.Admit(Live(g1, w.st), e.now, e.id, l);
    assert l.day == DayOf(e.now);
    AdmitArms(Live(g1, w.st), e.now, e.id, l);
  }

  lemma DenialsAreDenied(g: Gov, now: int, l: Lease)
    ensures CountDenial(g, now, l).Some? ==> CountDenial(g, now, l).value.Denied?
  {
    hide SecondsUntil, NextUtcMidnight, DayOf;
  }

  lemma ComputeDenialsAreDenied(g: Gov, st: StateRow, now: int, prefix: Prefix, egressBytes: int)
    ensures var d := ComputeDenial(g, st, now, prefix, egressBytes); d.Some? ==> d.value.Denied?
  {
    hide UncoveredMs, EgressHeld, AllowedAt, PacingResumesAt, Exceeded, DailyCeilingS, MonthCuS, SecondsUntil,
         NextUtcMidnight, DayOf;
  }

  lemma AdmitArms(w: Live, now: int, id: LeaseId, l: Lease)
    requires l.day == DayOf(now)
    ensures var st := Stored(Admit(w, now, id, l));
            st.purgedDay == Some(DayOf(now)) && st.alarmAt.Some? && st.alarmAt.value <= (DayOf(now) + 1) * DAY_MS
  {
    hide Schedule, DayOf;
    var st := if l.lookup == 1 then w.st else w.st.(lastAdmitAt := now);
    var p := PurgeOnce(Live(Issue(w.g, id, l), st), now);
    assert NetworkOf(l) in p.g.prefixes;
    ScheduledByMidnight(p, now);
    ScheduleKeepsDay(p, now);
  }

  lemma ScheduleKeepsDay(w: Live, now: int)
    ensures Schedule(w, now).purgedDay == w.st.purgedDay
  {
    hide WantedAlarm;
  }

  /** No settlement or expiry creates a network row: only an admission can. */
  lemma OnlyAdmissionsAddRows(g: Gov, e: Event)
    requires !e.Request?
    ensures Next(g, e).prefixes.Keys <= g.prefixes.Keys
  {
    hide Expire, Load, ChargeFor, PollDue, Applies, ApplyPoll, Schedule;
    if e.Alarm? {
      ExpireKeepsKeys(Live(Tick(g, e.now), Load(g.row, e.now).(alarmAt := None)), e.now, e.order);
    }
  }
}
