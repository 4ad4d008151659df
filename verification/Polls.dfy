/** When Neon is polled, what its figures become, and when the next alarm is, told from a run's events
    (edge/src/governor.ts:710-722, 969-1058).
 */
module Polls {
  import opened Budget
  import opened Pacing
  import opened GovernorModel
  import opened Sanitizer
  import opened Invariant
  import opened Events
  import opened CeilingTheorems
  import opened RequestTheorems

  // ----- a run's events -----

  /** The event admits an analysis. */
  ghost predicate AdmitsAnalysis(g: Gov, e: Event) {
    e.Request? && e.lease.lookup != 1 && e.id in Next(g, e).hist.issued
  }

  /** The alarm begins a poll. */
  ghost predicate BeginsPoll(g: Gov, e: Event) {
    e.Alarm? && e.now in Next(g, e).hist.polls && e.now !in g.hist.polls
  }

  /** The poll's figures are such as Neon gives: not negative, of a period of at most 32 days that ends at most 32 days
      after the poll. */
  predicate Plausible(polledAt: int, r: PollResult) {
    && r.Usage?
    && 0.0 <= r.computeTimeS && 0.0 <= r.dataTransferBytes
    && 0 <= r.periodStart < r.periodEnd <= r.periodStart + 32 * 86_400_000 && r.periodEnd <= polledAt + 32 * 86_400_000
  }

  /** The time of the run's last admitted analysis, or 0. */
  ghost function LastAnalysisAt(neonKey: bool, run: seq<Event>): int {
    if run == [] then 0
    else
      var rest, e := run[..|run| - 1], run[|run| - 1];
      if AdmitsAnalysis(After(neonKey, rest), e) then e.now else LastAnalysisAt(neonKey, rest)
  }

  /** The time of the run's last begun poll, or 0. */
  ghost function LastPollAt(neonKey: bool, run: seq<Event>): int {
    if run == [] then 0
    else
      var rest, e := run[..|run| - 1], run[|run| - 1];
      if BeginsPoll(After(neonKey, rest), e) then e.now else LastPollAt(neonKey, rest)
  }

  /** The run's last poll that ended with plausible figures. */
  function LastFigures(run: seq<Event>): Option<Event> {
    if run == [] then None
    else
      var rest, e := run[..|run| - 1], run[|run| - 1];
      if e.PollEnds? && Plausible(e.polledAt, e.result) then Some(e) else LastFigures(rest)
  }

  /** The stored figures are those of this poll. */
  predicate FiguresOf(neon: Option<NeonUsage>, e: Option<Event>) {
    match e
    case None => neon.None?
    case Some(p) =>
      && neon.Some? && p.PollEnds? && p.result.Usage?
      && neon.value.polledAt == p.polledAt
      && neon.value.computeTimeS == p.result.computeTimeS && neon.value.dataTransferBytes == p.result.dataTransferBytes
      && neon.value.periodStart == p.result.periodStart && neon.value.periodEnd == p.result.periodEnd
  }

  // ----- one event -----

  /** The times and figures a state row remembers. */
  predicate SameTimes(st: StateRow, st': StateRow) {
    st'.lastAdmitAt == st.lastAdmitAt && st'.lastPollAt == st.lastPollAt && st'.neon == st.neon
  }

  lemma LoadedTimesAre(t: Gov)
    requires Good(t)
    ensures SameTimes(Stored(t), Load(t.row, t.hist.clock)) && Load(t.row, t.hist.clock).alarmAt == Stored(t).alarmAt
  {
    hide Holds;
    LoadHolds(t);
  }

  lemma ExpireKeepsTimes(w: Live, now: int, order: seq<LeaseId>)
    ensures var w' := Expire(w, now, order);
            && SameTimes(w.st, w'.st) && w'.st.alarmAt == w.st.alarmAt && w'.g.hist.polls == w.g.hist.polls
            && w'.st.purgedDay == w.st.purgedDay
  {
    ExpireKeepsKeys(w, now, order);
    hide Expire;
  }

  lemma ScheduleKeepsTimes(w: Live, now: int)
    ensures SameTimes(w.st, Schedule(w, now))
  {
    hide WantedAlarm;
  }

  lemma PurgeKeepsTimes(w: Live, now: int)
    ensures var p := PurgeOnce(w, now);
            SameTimes(w.st, p.st) && p.st.alarmAt == w.st.alarmAt && p.g.hist == w.g.hist && p.g.leases == w.g.leases
  {
  }

  /** The state row in the hands of a request that has not been denied for a count. */
  lemma RequestTimes(t: Gov, e: Event)
    requires Good(t) && t.hist.clock == e.now && e.Request? && e.id !in t.hist.issued
             && StaleOrder(t.leases, e.now, e.order)
    ensures var g' := Admission(t, e.now, e.id, e.lease, e.order).g;
            && Stored(g').lastPollAt == Stored(t).lastPollAt && Stored(g').neon == Stored(t).neon
            && g'.hist.polls == t.hist.polls
            && Stored(g').lastAdmitAt == if e.lease.lookup != 1 && e.id in g'.hist.issued then e.now
               else Stored(t).lastAdmitAt
  {
    hide Good, StaleOrder, Expire, Load, CountDenial, ComputeDenial, Admit, SameTimes, OnlyExpired, Holds, NoneStale;
    LoadedTimesAre(t);
    var w := Live(t, Load(t.row, e.now));
    ExpireKeepsTimes(w, e.now, e.order);
    LoadHolds(t);
    ExpireHolds(w, e.now, e.order);
    ExpiredHistory(w, Expire(w, e.now, e.order));
    var w1 := Expire(w, e.now, e.order);
    var g1 := if e.order == [] then t else Save(w1.g, w1.st);
    AdmitTimes(Live(g1, w1.st), e.now, e.id, e.lease);
    hide Admission;
    RequestIsEither(t, e);
    TimesAgree(Stored(t), w.st);
    TimesAgree(w.st, w1.st);
  }

  lemma TimesAgree(st: StateRow, st': StateRow)
    requires SameTimes(st, st')
    ensures st'.lastAdmitAt == st.lastAdmitAt && st'.lastPollAt == st.lastPollAt && st'.neon == st.neon
  {
  }

  lemma RequestIsEither(t: Gov, e: Event)
    requires e.Request?
    ensures var w := Expire(Live(t, Load(t.row, e.now)), e.now, e.order);
            var g1 := if e.order == [] then t else Save(w.g, w.st);
            var g' := Admission(t, e.now, e.id, e.lease, e.order).g;
            g' == t || g' == g1 || g' == Admit(Live(g1, w.st), e.now, e.id, e.lease)
  {
    hide CountDenial, ComputeDenial, Expire, Admit;
  }

  lemma AdmitTimes(w: Live, now: int, id: LeaseId, l: Lease)
    ensures var g' := Admit(w, now, id, l);
            && Stored(g').lastPollAt == w.st.lastPollAt && Stored(g').neon == w.st.neon
            && Stored(g').lastAdmitAt == (if l.lookup == 1 then w.st.lastAdmitAt else now)
            && g'.hist == w.g.hist.(issued := w.g.hist.issued[id := l])
  {
    hide Schedule, PurgeOnce;
    var st := if l.lookup == 1 then w.st else w.st.(lastAdmitAt := now);
    var i := Live(Issue(w.g, id, l), st);
    PurgeKeepsTimes(i, now);
    ScheduleKeepsTimes(PurgeOnce(i, now), now);
  }

  lemma SettleTimes(t: Gov, e: Event)
    requires Good(t) && t.hist.clock == e.now && e.Settlement?
    ensures var g' := Settle(t, e.now, e.id, e.kind, e.dbMs);
            SameTimes(Stored(t), Stored(g')) && Stored(g').alarmAt == Stored(t).alarmAt && g'.hist.polls == t.hist.polls
  {
    hide Good, Load, ChargeFor, AddCharged, RefundDay, RefundNetwork, ChargeDay, ChargeNetwork;
    LoadedTimesAre(t);
  }

  /** An alarm begins a poll exactly when there is a key, an analysis came within five minutes, and no poll did. */
  lemma AlarmTimes(t: Gov, e: Event)
    requires Good(t) && t.hist.clock == e.now && e.Alarm? && StaleOrder(t.leases, e.now, e.order)
    ensures var g', st := AlarmStart(t, e.now, e.order), Stored(t);
            var polls := t.neonKey && e.now - st.lastAdmitAt <= 300_000 && e.now - st.lastPollAt >= 300_000;
            && g'.hist.polls == (if polls then t.hist.polls + {e.now} else t.hist.polls)
            && Stored(g').lastAdmitAt == st.lastAdmitAt && Stored(g').neon == st.neon
            && Stored(g').lastPollAt == (if polls then e.now else st.lastPollAt)
            && (polls ==> Stored(g').alarmAt == None)
  {
    hide Good, Holds, StaleOrder, Load, Expire, PurgeOnce, Schedule, NoneStale;
    LoadedTimesAre(t);
    var loaded := Live(t, Load(t.row, e.now).(alarmAt := None));
    ExpireKeepsTimes(loaded, e.now, e.order);
    PurgeKeepsTimes(Expire(loaded, e.now, e.order), e.now);
    AlarmWorkHolds(t, e.now, e.order);
    var w := AlarmWork(t, e.now, e.order);
    WorkKeepsKey(t, e.now, e.order);
    SaveIsGood(w);
    LoadedTimesAre(Save(w.g, w.st));
    ScheduleKeepsTimes(Live(Save(w.g, w.st), Load(Some(w.st), e.now)), e.now);
  }

  lemma WorkKeepsKey(t: Gov, now: int, order: seq<LeaseId>)
    requires StaleOrder(t.leases, now, order)
    ensures AlarmWork(t, now, order).g.neonKey == t.neonKey
  {
    hide Load, StaleOrder;
    ExpireKeepsKey(Live(t, Load(t.row, now).(alarmAt := None)), now, order);
    hide Expire;
  }

  /** Plausible figures are kept, and no others: their bridge bases always are in order. */
  lemma AppliesIff(t: Gov, now: int, polledAt: int, r: PollResult)
    requires Good(t) && t.hist.clock == now && polledAt in t.hist.polls
    ensures Applies(t, Load(t.row, now), now, polledAt, r) <==> Plausible(polledAt, r)
  {
    var st := Load(t.row, now);
    LoadHolds(t);
    BasesAreInOrder(t, st, now, polledAt);
    hide Good, Holds, Load, DayRowOf, DayOf;
  }

  lemma BasesAreInOrder(t: Gov, st: StateRow, now: int, polledAt: int)
    requires Holds(Live(t, st)) && t.hist.clock == now && polledAt in t.hist.polls
    ensures 0 <= polledAt <= now && st.cuTotalS >= 0.0 && st.egressTotal >= 0
    ensures st.neon.Some? ==>
              0.0 <= st.neon.value.cuAtPollS <= st.cuTotalS && 0 <= st.neon.value.egressAtPoll <= st.egressTotal
  {
    hide Tables, Charges, Bridged, WindowsClean;
  }

  /** What a finished poll leaves: plausible figures and no error, or the figures as they were and an error of at most
      64 characters. */
  lemma PollEndTimes(t: Gov, e: Event)
    requires Good(t) && t.hist.clock == e.now && e.PollEnds? && e.polledAt in t.hist.polls
    ensures var g', st := AlarmFinish(t, e.now, e.polledAt, e.result), Stored(t);
            && Stored(g').lastAdmitAt == st.lastAdmitAt && Stored(g').lastPollAt == st.lastPollAt
            && g'.hist.polls == t.hist.polls - {e.polledAt}
            && (if Plausible(e.polledAt, e.result) then FiguresOf(Stored(g').neon, Some(e))
                && Stored(g').pollError == None
                else Stored(g').neon == st.neon && Stored(g').pollError == Some(ErrorOf(e.result)))
  {
    hide Good, Holds, Load, Schedule, Applies, ApplyPoll, FiguresOf, Plausible, ErrorOf;
    LoadedTimesAre(t);
    AppliesIff(t, e.now, e.polledAt, e.result);
    PollAppliedHolds(t, e.now, e.polledAt, e.result);
    var w := PollApplied(t, e.now, e.polledAt, e.result);
    AppliedIs(t, Load(t.row, e.now), e);
    SaveIsGood(w);
    LoadHolds(Save(w.g, w.st));
    CutOnce(e.result);
    ScheduleKeepsTimes(Live(Save(w.g, w.st), Load(Some(w.st), e.now)), e.now);
    ScheduleKeepsError(Live(Save(w.g, w.st), Load(Some(w.st), e.now)), e.now);
  }

  function ErrorOf(r: PollResult): string {
    match r
    case Failed(error) => if |error| <= 64 then error else error[..64]
    case Usage(_, _, _, _) => "invalid_response"
  }

  lemma CutOnce(r: PollResult)
    ensures CutError(None) == None
    ensures CutError(Some(if r.Failed? then r.error else "invalid_response")) == Some(ErrorOf(r))
  {
  }

  lemma ScheduleKeepsError(w: Live, now: int)
    ensures Schedule(w, now).pollError == w.st.pollError
  {
    hide WantedAlarm;
  }

  lemma AppliedIs(t: Gov, st: StateRow, e: Event)
    requires e.PollEnds?
    ensures var st' := ApplyPoll(t, st, e.now, e.polledAt, e.result);
            && st'.lastAdmitAt == st.lastAdmitAt && st'.lastPollAt == st.lastPollAt && st'.alarmAt == st.alarmAt
            && (if Applies(t, st, e.now, e.polledAt, e.result)
                then FiguresOf(st'.neon, Some(e)) && st'.pollError == None
                else st'.neon == st.neon
                     && st'.pollError == Some(if e.result.Failed? then e.result.error else "invalid_response"))
  {
    if e.result.Usage? {
      SanitizedNeon(PolledUsage(t, st, e.polledAt, e.result), e.now, st.cuTotalS, st.egressTotal);
    }
  }

  // ----- runs -----

  /** The polls in flight began no later than the last. */
  ghost predicate PollsKnown(g: Gov) {
    forall p :: p in g.hist.polls ==> p <= Stored(g).lastPollAt
  }

  /** One event, and what the state row remembers of it. */
  lemma NextRemembers(g: Gov, e: Event)
    requires Good(g) && Possible(g, e) && PollsKnown(g)
    ensures var g', st, st' := Next(g, e), Stored(g), Stored(Next(g, e));
            && st'.lastAdmitAt == (if AdmitsAnalysis(g, e) then e.now else st.lastAdmitAt)
            && st'.lastPollAt == (if BeginsPoll(g, e) then e.now else st.lastPollAt)
            && (if e.PollEnds? && Plausible(e.polledAt, e.result) then FiguresOf(st'.neon, Some(e))
                else st'.neon == st.neon)
            && PollsKnown(g')
  {
    hide Good, Admission, Settle, AlarmStart, AlarmFinish, Restart, StaleOrder, Plausible, FiguresOf;
    var t := Tick(g, e.now);
    TickIsGood(g, e.now);
    TimesPast(t);
    match e
    case Request(now, id, l, order) => RequestTimes(t, e);
    case Settlement(now, id, kind, dbMs) => SettleTimes(t, e);
    case Alarm(now, order) => AlarmTimes(t, e);
    case PollEnds(now, polledAt, r) => PollEndTimes(t, e);
    case Starts(now) => RestartIsNothing(t, now);
  }

  lemma TimesPast(t: Gov)
    requires Good(t)
    ensures Stored(t).lastPollAt <= t.hist.clock && forall p :: p in t.hist.polls ==> p <= t.hist.clock
  {
    hide Tables, Charges, Bridged, WindowsClean, NeonClean;
  }

  /** On every run, the state row remembers its last admitted analysis and its last begun poll, and its figures are
      those of the last poll that ended with plausible ones. */
  lemma {:induction false} RunsRemember(neonKey: bool, run: seq<Event>)
    requires IsRun(neonKey, run)
    ensures var g := After(neonKey, run);
            && Stored(g).lastAdmitAt == LastAnalysisAt(neonKey, run) && Stored(g).lastPollAt == LastPollAt(neonKey, run)
            && FiguresOf(Stored(g).neon, LastFigures(run)) && PollsKnown(g)
  {
    if run != [] {
      hide Good, Next, Possible, AdmitsAnalysis, BeginsPoll, PollsKnown, FiguresOf, Stored, Plausible;
      var n := |run| - 1;
      RunsRemember(neonKey, run[..n]);
      RunsAreGood(neonKey, run[..n]);
      NextRemembers(After(neonKey, run[..n]), run[n]);
    }
  }

  /** On every run, an alarm begins a poll if and only if there is a key, the run's last admitted analysis came at most
      five minutes ago, and no poll of the run began less than five minutes ago. */
  lemma PollIsBegunIff(neonKey: bool, run: seq<Event>, e: Event)
    requires IsRun(neonKey, run + [e]) && e.Alarm?
    ensures var g := After(neonKey, run);
            && (BeginsPoll(g, e) <==>
                  neonKey && e.now - LastAnalysisAt(neonKey, run) <= 300_000
                      && e.now - LastPollAt(neonKey, run) >= 300_000)
            && Next(g, e).hist.polls == (if BeginsPoll(g, e) then g.hist.polls + {e.now} else g.hist.polls)
            && (BeginsPoll(g, e) ==> Stored(Next(g, e)).alarmAt == None)
  {
    assert (run + [e])[..|run|] == run && (run + [e])[|run|] == e;
    assert IsRun(neonKey, run) && Possible(After(neonKey, run), e);
    hide IsRun, Good, AlarmStart, StaleOrder, LastAnalysisAt, LastPollAt;
    var g := After(neonKey, run);
    hide After;
    RunsAreGood(neonKey, run);
    RunsRemember(neonKey, run);
    SameKey(neonKey, run);
    TickIsGood(g, e.now);
    AlarmTimes(Tick(g, e.now), e);
  }

  // ----- the next alarm -----

  /** The times an alarm is wanted at: the next poll, five minutes after the last, while analyses keep coming, and the
      next midnight, while there is a network row or a lease. */
  function WantedTimes(neonKey: bool, lastAnalysisAt: int, lastPollAt: int, busy: bool, now: int): set<int> {
    (if neonKey && now - lastAnalysisAt <= 300_000 then {Max(now, lastPollAt + 300_000)} else {})
    + if busy then {(now / 86_400_000 + 1) * 86_400_000} else {}
  }

  /** An alarm is pending at the earliest of these times and the one pending before, unless that is past; it stays as it
      was when there are none. */
  predicate IsEarliest(alarm: Option<int>, before: Option<int>, now: int, times: set<int>) {
    if times == {} then alarm == before
    else
      && alarm.Some? && (alarm.value in times || alarm == before) && now <= alarm.value
      && (forall t :: t in times ==> alarm.value <= t)
      && (before.Some? && now <= before.value ==> alarm.value <= before.value)
  }

  ghost predicate AlarmSet(g': Gov, before: Option<int>, now: int) {
    var st := Stored(g');
    IsEarliest(st.alarmAt, before, now,
               WantedTimes(g'.neonKey, st.lastAdmitAt, st.lastPollAt, g'.prefixes != map[] || g'.leases != map[], now))
  }

  lemma ScheduleSets(w: Live, now: int)
    ensures AlarmSet(Save(w.g, Schedule(w, now)), w.st.alarmAt, now)
  {
    MidnightIsNext(now);
  }

  lemma AdmitSets(w: Live, now: int, id: LeaseId, l: Lease)
    ensures AlarmSet(Admit(w, now, id, l), w.st.alarmAt, now)
  {
    hide Schedule, PurgeOnce, AlarmSet, Issue;
    var st := if l.lookup == 1 then w.st else w.st.(lastAdmitAt := now);
    var i := Live(Issue(w.g, id, l), st);
    PurgeKeepsTimes(i, now);
    ScheduleSets(PurgeOnce(i, now), now);
  }

  lemma RequestSets(t: Gov, e: Event)
    requires Good(t) && t.hist.clock == e.now && e.Request? && e.id !in t.hist.issued
             && StaleOrder(t.leases, e.now, e.order)
    ensures var g' := Admission(t, e.now, e.id, e.lease, e.order).g;
            if e.id in g'.hist.issued then AlarmSet(g', Stored(t).alarmAt, e.now)
                else Stored(g').alarmAt == Stored(t).alarmAt
  {
    hide Good, StaleOrder, Expire, Load, Admit, Holds, OnlyExpired, NoneStale, AlarmSet, SameTimes;
    LoadedTimesAre(t);
    LoadHolds(t);
    var w := Live(t, Load(t.row, e.now));
    ExpireKeepsTimes(w, e.now, e.order);
    ExpireHolds(w, e.now, e.order);
    var w1 := Expire(w, e.now, e.order);
    ExpiredHistory(w, w1);
    var g1 := if e.order == [] then t else Save(w1.g, w1.st);
    AdmitTimes(Live(g1, w1.st), e.now, e.id, e.lease);
    AdmitSets(Live(g1, w1.st), e.now, e.id, e.lease);
    RequestIsEither(t, e);
    hide Admission;
  }

  lemma AlarmSets(t: Gov, e: Event)
    requires Good(t) && t.hist.clock == e.now && e.Alarm? && StaleOrder(t.leases, e.now, e.order)
    ensures var w := AlarmWork(t, e.now, e.order);
            !PollDue(w.g, w.st, e.now) ==> AlarmSet(AlarmStart(t, e.now, e.order), None, e.now)
  {
    hide Good, Holds, StaleOrder, Load, Expire, PurgeOnce, Schedule, NoneStale, AlarmSet, PollDue;
    var loaded := Live(t, Load(t.row, e.now).(alarmAt := None));
    ExpireKeepsTimes(loaded, e.now, e.order);
    PurgeKeepsTimes(Expire(loaded, e.now, e.order), e.now);
    AlarmWorkHolds(t, e.now, e.order);
    var w := AlarmWork(t, e.now, e.order);
    SaveIsGood(w);
    LoadedTimesAre(Save(w.g, w.st));
    ScheduleSets(Live(Save(w.g, w.st), Load(Some(w.st), e.now)), e.now);
  }

  lemma PollEndSets(t: Gov, e: Event)
    requires Good(t) && t.hist.clock == e.now && e.PollEnds? && e.polledAt in t.hist.polls
    ensures AlarmSet(AlarmFinish(t, e.now, e.polledAt, e.result), Stored(t).alarmAt, e.now)
  {
    hide Good, Holds, Load, Schedule, Applies, ApplyPoll, FiguresOf, AlarmSet;
    LoadedTimesAre(t);
    PollAppliedHolds(t, e.now, e.polledAt, e.result);
    var w := PollApplied(t, e.now, e.polledAt, e.result);
    AppliedIs(t, Load(t.row, e.now), e);
    SaveIsGood(w);
    LoadedTimesAre(Save(w.g, w.st));
    ScheduleSets(Live(Save(w.g, w.st), Load(Some(w.st), e.now)), e.now);
  }

  /** The events after which the next alarm is set: an admission, an alarm that polls not, and the end of a poll. */
  ghost predicate SetsAlarm(g: Gov, e: Event) {
    match e
    case Request(_, id, _, _) => id in Next(g, e).hist.issued
    case Alarm(_, _) => !BeginsPoll(g, e)
    case PollEnds(_, _, _) => true
    case _ => false
  }

  lemma NextSets(g: Gov, e: Event)
    requires Good(g) && Possible(g, e) && PollsKnown(g)
    ensures if SetsAlarm(g, e) then AlarmSet(Next(g, e), if e.Alarm? then None else Stored(g).alarmAt, e.now)
            else e.Alarm? || Stored(Next(g, e)).alarmAt == Stored(g).alarmAt
  {
    hide Good, Admission, Settle, AlarmStart, AlarmFinish, Restart, StaleOrder, AlarmSet;
    var t := Tick(g, e.now);
    TickIsGood(g, e.now);
    TimesPast(t);
    match e
    case Request(now, id, l, order) => RequestSets(t, e);
    case Settlement(now, id, kind, dbMs) => SettleTimes(t, e);
    case Alarm(now, order) =>
      AlarmTimes(t, e);
      AlarmSets(t, e);
      DueIs(t, e);
    case PollEnds(now, polledAt, r) => PollEndSets(t, e);
    case Starts(now) => RestartIsNothing(t, now);
  }

  /** The poll is due in the alarm's work exactly when the alarm begins one. */
  lemma DueIs(t: Gov, e: Event)
    requires Good(t) && t.hist.clock == e.now && e.Alarm? && StaleOrder(t.leases, e.now, e.order) && PollsKnown(t)
    requires Stored(t).lastPollAt <= e.now
    ensures var w := AlarmWork(t, e.now, e.order);
            PollDue(w.g, w.st, e.now) ==> e.now in AlarmStart(t, e.now, e.order).hist.polls && e.now !in t.hist.polls
  {
    hide Good, Holds, StaleOrder, Load, Expire, PurgeOnce, Schedule, NoneStale;
    LoadedTimesAre(t);
    var loaded := Live(t, Load(t.row, e.now).(alarmAt := None));
    ExpireKeepsTimes(loaded, e.now, e.order);
    PurgeKeepsTimes(Expire(loaded, e.now, e.order), e.now);
  }

  /** On every run, the next alarm is set at the earliest time it is wanted, told from the run's events, and otherwise
      stays as it was. */
  lemma AlarmIsTheEarliest(neonKey: bool, run: seq<Event>, e: Event)
    requires IsRun(neonKey, run + [e])
    ensures var run', g, g' := run + [e], After(neonKey, run), Next(After(neonKey, run), e);
            var busy := g'.prefixes != map[] || g'.leases != map[];
            var times := WantedTimes(neonKey, LastAnalysisAt(neonKey, run'), LastPollAt(neonKey, run'), busy, e.now);
            if SetsAlarm(g, e) then
              IsEarliest(Stored(g').alarmAt, if e.Alarm? then None else Stored(g).alarmAt, e.now, times)
            else e.Alarm? || Stored(g').alarmAt == Stored(g).alarmAt
  {
    assert (run + [e])[..|run|] == run && (run + [e])[|run|] == e;
    assert IsRun(neonKey, run) && Possible(After(neonKey, run), e);
    assert After(neonKey, run + [e]) == Next(After(neonKey, run), e);
    hide IsRun, Good, Possible, Next, LastAnalysisAt, LastPollAt, After, SetsAlarm, WantedTimes, IsEarliest,
         PollsKnown, FiguresOf;
    var g := After(neonKey, run);
    RunsAreGood(neonKey, run);
    RunsRemember(neonKey, run);
    RunsRemember(neonKey, run + [e]);
    SameKey(neonKey, run + [e]);
    NextSets(g, e);
  }
}
