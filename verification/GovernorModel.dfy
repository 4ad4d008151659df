/** The quota governor's tables, state row and events as values (edge/src/governor.ts).

    A table is a map from its primary key to a row, a UTC day its number since 1970-01-01.
    `History` is bookkeeping beside the program's own state: nothing the program decides
    reads it.
 */
module GovernorModel {
  import opened Budget
  import opened Pacing
  import Sums

  // ----- constants (edge/src/constants.ts, edge/src/governor.ts:113-131) -----

  const GLOBAL_DAILY_ANALYSES := 600
  const PREFIX_DAILY_ANALYSES := 60
  const PREFIX_DAILY_ADMISSIONS := 300
  const PREFIX_DAILY_CU_SHARE := 0.2
  const HEAVY_DAILY_ANALYSES := 300
  const GLOBAL_DAILY_LOOKUPS := 2_000
  const PREFIX_DAILY_LOOKUPS := 200
  const SNAPSHOT_READ_EGRESS_BYTES := 128 * 1024
  const LIGHT_EGRESS_BYTES := 64 * 1024
  const HEAVY_EGRESS_BYTES := 512 * 1024
  const MAX_LEASE_EGRESS_BYTES := HEAVY_EGRESS_BYTES
  const LEASE_TTL_MS := 600_000
  const DAILY_CU_HOURS_GROUND_TRUTH := 10.0
  const DAILY_CU_HOURS_CONSERVATIVE := 90.0 / 31.0
  const EGRESS_STOP_BYTES := 4_500_000_000.0
  const EGRESS_DAILY_CONSERVATIVE_BYTES := EGRESS_STOP_BYTES / 31.0
  const NEON_POLL_INTERVAL_MS := 300_000
  const GROUND_TRUTH_MAX_AGE_MS := DAY_MS
  const DAY_RETENTION_DAYS := 40
  const MAX_WINDOW_AHEAD_MS := PROVISIONAL_BUSY_MS + NEON_IDLE_TAIL_MS
  const NEON_MAX_PERIOD_MS := 32 * DAY_MS
  const POLL_ERROR_LENGTH := 64

  // ----- rows -----

  type Day = int
  type LeaseId = string
  type Prefix = string

  datatype Network = Network(day: Day, prefix: Prefix)

  datatype DayRow = DayRow(admitted: int, heavy: int, cuS: real, egress: int, refunded: int, lookups: int)

  datatype PrefixRow = PrefixRow(count: int, attempts: int, cuS: real, lookups: int)

  datatype Lease = Lease(day: Day, prefix: Prefix, heavy: int, admittedAt: int, egress: int, lookup: int)

  datatype NeonUsage = NeonUsage(
    polledAt: int, computeTimeS: real, dataTransferBytes: real, periodStart: int, periodEnd: int,
    cuBaseS: real, egressBase: int, cuAtPollS: real, egressAtPoll: int)

  /** Everything that is not a per-day or per-lease row. */
  datatype StateRow = StateRow(
    charged: seq<Interval>, cuTotalS: real, egressTotal: int, lastAdmitAt: int, lastPollAt: int,
    pollError: Option<string>, purgedDay: Option<Day>, alarmAt: Option<int>, neon: Option<NeonUsage>)

  const INITIAL_STATE := StateRow([], 0.0, 0, 0, 0, None, None, None, None)

  const NO_DAY := DayRow(0, 0, 0.0, 0, 0, 0)
  const NO_USE := PrefixRow(0, 0, 0.0, 0)

  // ----- what is stored as JSON, and its sanitiser (edge/src/governor.ts:1094-1196) -----

  /** A JSON value where a `T` is expected: one, or anything else. */
  datatype Raw<+T> = Is(value: T) | Other

  datatype RawWindow = Pair(start: Raw<int>, end: Raw<int>) | NotAPair

  datatype RawNeon = RawNeon(
    polledAt: Raw<int>, computeTimeS: Raw<real>, dataTransferBytes: Raw<real>, periodStart: Raw<int>,
    periodEnd: Raw<int>, cuBaseS: Raw<real>, egressBase: Raw<int>, cuAtPollS: Raw<real>, egressAtPoll: Raw<int>)

  datatype RawState = RawState(
    charged: Raw<seq<RawWindow>>, cuTotalS: Raw<real>, egressTotal: Raw<int>, lastAdmitAt: Raw<int>,
    lastPollAt: Raw<int>, pollError: Raw<string>, purgedDay: Raw<Day>, alarmAt: Raw<int>, neon: Raw<RawNeon>)

  predicate IsCount(v: Raw<int>) { v.Is? && v.value >= 0 }

  predicate IsMeasure(v: Raw<real>) { v.Is? && v.value >= 0.0 }

  function CountOr0(v: Raw<int>): int { if IsCount(v) then v.value else 0 }

  function PastOr0(v: Raw<int>, now: int): int { if IsCount(v) && v.value <= now then v.value else 0 }

  predicate WindowPossible(w: RawWindow, now: int) {
    w.Pair? && IsCount(w.start) && IsCount(w.end) && w.end.value <= now + MAX_WINDOW_AHEAD_MS
  }

  function PossibleWindows(ws: seq<RawWindow>, now: int): seq<Interval> {
    if ws == [] then []
    else
      var last, rest := ws[|ws| - 1], PossibleWindows(ws[..|ws| - 1], now);
      if WindowPossible(last, now) then rest + [Interval(last.start.value, last.end.value)] else rest
  }

  function CutError(e: Option<string>): Option<string> {
    if e.Some? && |e.value| > POLL_ERROR_LENGTH then Some(e.value[..POLL_ERROR_LENGTH]) else e
  }

  predicate NeonFieldsPresent(raw: RawNeon) {
    && IsCount(raw.polledAt) && IsMeasure(raw.computeTimeS) && IsMeasure(raw.dataTransferBytes)
    && IsCount(raw.periodStart) && IsCount(raw.periodEnd) && IsMeasure(raw.cuBaseS)
    && IsCount(raw.egressBase) && IsMeasure(raw.cuAtPollS) && IsCount(raw.egressAtPoll)
  }

  predicate NeonPossible(n: NeonUsage, now: int, cuTotalS: real, egressTotal: int) {
    && n.polledAt <= now
    && n.periodStart < n.periodEnd
    && n.periodEnd - n.periodStart <= NEON_MAX_PERIOD_MS
    && n.periodEnd - n.polledAt <= NEON_MAX_PERIOD_MS
    && n.cuBaseS <= n.cuAtPollS <= cuTotalS
    && n.egressBase <= n.egressAtPoll <= egressTotal
  }

  function SanitizeNeon(stored: Raw<RawNeon>, now: int, cuTotalS: real, egressTotal: int): Option<NeonUsage> {
    if stored.Other? || !NeonFieldsPresent(stored.value) then None
    else
      var r := stored.value;
      var n := NeonUsage(r.polledAt.value, r.computeTimeS.value, r.dataTransferBytes.value, r.periodStart.value,
                         r.periodEnd.value, r.cuBaseS.value, r.egressBase.value, r.cuAtPollS.value,
                         r.egressAtPoll.value);
      if NeonPossible(n, now, cuTotalS, egressTotal) then Some(n) else None
  }

  function SanitizeState(stored: Raw<RawState>, now: int): StateRow {
    var none: RawState := RawState(Other, Other, Other, Other, Other, Other, Other, Other, Other);
    var raw := if stored.Is? then stored.value else none;
    var cuTotalS := if IsMeasure(raw.cuTotalS) then raw.cuTotalS.value else 0.0;
    var egressTotal := CountOr0(raw.egressTotal);
    StateRow(
      if raw.charged.Is? then Merged(PossibleWindows(raw.charged.value, now)) else [],
      cuTotalS,
      egressTotal,
      PastOr0(raw.lastAdmitAt, now),
      PastOr0(raw.lastPollAt, now),
      if raw.pollError.Is? then CutError(Some(raw.pollError.value)) else None,
      if raw.purgedDay.Is? && raw.purgedDay.value <= DayOf(now) then Some(raw.purgedDay.value) else None,
      if IsCount(raw.alarmAt) then Some(raw.alarmAt.value) else None,
      SanitizeNeon(raw.neon, now, cuTotalS, egressTotal))
  }

  function RawOf<T>(v: Option<T>): Raw<T> { if v.Some? then Is(v.value) else Other }

  function EncodeNeon(n: NeonUsage): RawNeon {
    RawNeon(Is(n.polledAt), Is(n.computeTimeS), Is(n.dataTransferBytes), Is(n.periodStart), Is(n.periodEnd),
            Is(n.cuBaseS), Is(n.egressBase), Is(n.cuAtPollS), Is(n.egressAtPoll))
  }

  function EncodeWindows(xs: seq<Interval>): seq<RawWindow> {
    seq(|xs|, i requires 0 <= i < |xs| => Pair(Is(xs[i].start), Is(xs[i].end)))
  }

  /** The JSON that `saveState` writes. */
  function EncodeState(st: StateRow): RawState {
    RawState(Is(EncodeWindows(st.charged)), Is(st.cuTotalS), Is(st.egressTotal), Is(st.lastAdmitAt),
             Is(st.lastPollAt), RawOf(st.pollError), RawOf(st.purgedDay), RawOf(st.alarmAt),
             if st.neon.Some? then Is(EncodeNeon(st.neon.value)) else Other)
  }

  // ----- the governor -----

  datatype SettleKind = NotReached | Shed | Rejected | Reused | Computed

  datatype Ending = Expired | Settled(kind: SettleKind, dbMs: Option<int>)

  /** One charge: the window and the milliseconds of it not charged before. `lateMs` of those lie
      outside the lease's provisional interval; `lostMs` is what trimming then forgot although a
      live lease still covers it. */
  datatype Charge = Charge(id: LeaseId, lease: Lease, window: Interval, addedMs: nat, lateMs: nat, lostMs: nat)

  datatype History = History(
    clock: int, issued: map<LeaseId, Lease>, ended: map<LeaseId, Ending>, ledger: seq<Charge>,
    polls: set<int>, applied: seq<nat>)

  datatype Gov = Gov(
    neonKey: bool, days: map<Day, DayRow>, prefixes: map<Network, PrefixRow>, leases: map<LeaseId, Lease>,
    row: Option<StateRow>, hist: History)

  /** A governor in the middle of an event, with its state row in memory. */
  datatype Live = Live(g: Gov, st: StateRow)

  function Start(neonKey: bool): Gov {
    Gov(neonKey, map[], map[], map[], None, History(0, map[], map[], [], {}, []))
  }

  // ----- groups of leases -----

  datatype Group = Everyone | OnDay(day: Day) | OnNetwork(network: Network)

  predicate Member(l: Lease, who: Group) {
    match who
    case Everyone => true
    case OnDay(d) => l.day == d
    case OnNetwork(n) => l.day == n.day && l.prefix == n.prefix
  }

  function NetworkOf(l: Lease): Network { Network(l.day, l.prefix) }

  ghost function Provisional(l: Lease): set<int> {
    Instants(ProvisionalInterval(l.admittedAt))
  }

  /** The instants at which some live lease of the group is assumed to keep the compute up. */
  ghost function Cover(leases: map<LeaseId, Lease>, who: Group): set<int> {
    set id, t | id in leases && Member(leases[id], who) && t in Provisional(leases[id]) :: t
  }

  /** The egress estimates held by live leases of the group. */
  ghost function EgressHeld(leases: map<LeaseId, Lease>, who: Group): int {
    Sums.Sum(map id | id in leases && Member(leases[id], who) :: leases[id].egress)
  }

  // ----- loading and saving -----

  function Load(row: Option<StateRow>, now: int): StateRow {
    match row
    case None => INITIAL_STATE
    case Some(st) => SanitizeState(Is(EncodeState(st)), now)
  }

  function Save(g: Gov, st: StateRow): Gov { g.(row := Some(st)) }

  function DayRowOf(days: map<Day, DayRow>, d: Day): DayRow { if d in days then days[d] else NO_DAY }

  function UseOf(prefixes: map<Network, PrefixRow>, n: Network): PrefixRow {
    if n in prefixes then prefixes[n] else NO_USE
  }

  /** A stored count that is negative was planted: it reads as spent. */
  predicate Reached(stored: int, cap: int) { stored < 0 || stored >= cap }

  predicate Exceeded(stored: real, more: real, cap: real) { stored < 0.0 || stored + more > cap }

  // ----- charging -----

  function ChargeDay(days: map<Day, DayRow>, d: Day, cuS: real, egress: int): map<Day, DayRow> {
    var r := DayRowOf(days, d);
    days[d := r.(cuS := r.cuS + cuS, egress := r.egress + egress)]
  }

  function ChargeNetwork(prefixes: map<Network, PrefixRow>, n: Network, cuS: real): map<Network, PrefixRow> {
    if n in prefixes then prefixes[n := prefixes[n].(cuS := prefixes[n].cuS + cuS)] else prefixes
  }

  ghost function LateMs(charged: seq<Interval>, l: Lease, window: Interval): nat {
    |Instants(window) - Provisional(l) - Points(charged)|
  }

  /** What the new windows lost of the old ones that `needed` still covers. */
  ghost function LostMs(charged: seq<Interval>, window: Interval, charged': seq<Interval>, needed: set<int>): nat {
    |needed * (Points(charged) + Instants(window)) - Points(charged')|
  }

  /** The charge for lease `id`, which has ended, with a DB time of [start, end]. */
  ghost function ChargeFor(w: Live, id: LeaseId, l: Lease, start: int, end: int, keepAfter: int): Charge {
    var window := Window(start, end);
    Charge(id, l, window, AddedMs(w.st.charged, window), LateMs(w.st.charged, l, window),
           LostMs(w.st.charged, window, AddCharged(w.st.charged, window, keepAfter), Cover(w.g.leases, Everyone)))
  }

  /** Enter a charge in every table. */
  function Bill(w: Live, c: Charge, keepAfter: int): Live {
    var cuS := CuSeconds(c.addedMs);
    Live(
      w.g.(days := ChargeDay(w.g.days, c.lease.day, cuS, c.lease.egress),
           prefixes := ChargeNetwork(w.g.prefixes, NetworkOf(c.lease), cuS),
           hist := w.g.hist.(ledger := w.g.hist.ledger + [c])),
      w.st.(charged := AddCharged(w.st.charged, c.window, keepAfter),
            cuTotalS := w.st.cuTotalS + cuS, egressTotal := w.st.egressTotal + c.lease.egress))
  }

  // ----- ending a lease -----

  predicate RefundsCounts(l: Lease, e: Ending) {
    && e.Settled? && l.lookup != 1
    && (e.kind.NotReached? || e.kind.Shed?
        || ((e.kind.Rejected? || e.kind.Reused?) && !(e.dbMs.Some? && e.dbMs.value > 0)))
  }

  predicate RefundsPrefix(l: Lease, e: Ending) {
    e.Settled? && l.lookup != 1 && (e.kind.NotReached? || e.kind.Shed?)
  }

  predicate DbTouched(kind: SettleKind, dbMs: Option<int>) {
    !kind.NotReached? && dbMs != Some(0)
  }

  function RefundDay(days: map<Day, DayRow>, l: Lease): map<Day, DayRow> {
    if l.day !in days then days
    else
      var r := days[l.day];
      days[l.day := r.(admitted := Max(0, r.admitted - 1), heavy := Max(0, r.heavy - l.heavy),
                       refunded := r.refunded + 1)]
  }

  function RefundNetwork(prefixes: map<Network, PrefixRow>, n: Network): map<Network, PrefixRow> {
    if n !in prefixes then prefixes
    else prefixes[n := prefixes[n].(count := Max(0, prefixes[n].count - 1))]
  }

  /** The lease leaves the table and gives back the counts its ending refunds. */
  function Close(g: Gov, id: LeaseId, e: Ending): Gov
    requires id in g.leases
  {
    var l := g.leases[id];
    g.(leases := g.leases - {id},
       days := if RefundsCounts(l, e) then RefundDay(g.days, l) else g.days,
       prefixes := if RefundsPrefix(l, e) then RefundNetwork(g.prefixes, NetworkOf(l)) else g.prefixes,
       hist := g.hist.(ended := g.hist.ended[id := e]))
  }

  ghost function Settle(g: Gov, now: int, id: LeaseId, kind: SettleKind, dbMs: Option<int>): Gov {
    if id !in g.leases then g
    else
      var l := g.leases[id];
      var closed := Close(g, id, Settled(kind, dbMs));
      if !DbTouched(kind, dbMs) then closed
      else
        var w := Live(closed, Load(g.row, now));
        var billed := Bill(w, ChargeFor(w, id, l, DbStart(l.admittedAt, now, dbMs), now, now - LEASE_TTL_MS),
                           now - LEASE_TTL_MS);
        Save(billed.g, billed.st)
  }

  // ----- expiry -----

  predicate IsStale(l: Lease, now: int) { l.admittedAt < now - LEASE_TTL_MS }

  /** The stale leases, oldest first; leases admitted at the same time in any order. */
  ghost predicate StaleOrder(leases: map<LeaseId, Lease>, now: int, order: seq<LeaseId>) {
    && (forall i :: 0 <= i < |order| ==> order[i] in leases && IsStale(leases[order[i]], now))
    && (forall id :: id in leases && IsStale(leases[id], now) ==> id in order)
    && (forall i, j :: 0 <= i < j < |order| ==>
          order[i] != order[j] && leases[order[i]].admittedAt <= leases[order[j]].admittedAt)
  }

  /** Charged like a settle at the end of the API's deadline. */
  ghost function ExpireOne(w: Live, id: LeaseId, horizon: int): Live {
    if id !in w.g.leases then w
    else
      var l, closed := w.g.leases[id], Live(Close(w.g, id, Expired), w.st);
      Bill(closed, ChargeFor(closed, id, l, l.admittedAt, l.admittedAt + PROVISIONAL_BUSY_MS, horizon), horizon)
  }

  ghost function ExpireEach(w: Live, order: seq<LeaseId>, horizon: int): Live {
    if order == [] then w
    else ExpireOne(ExpireEach(w, order[..|order| - 1], horizon), order[|order| - 1], horizon)
  }

  function Trim(st: StateRow, keepAfter: int): StateRow {
    st.(charged := EndingAfter(st.charged, keepAfter))
  }

  ghost function Expire(w: Live, now: int, order: seq<LeaseId>): Live {
    if order == [] || order[0] !in w.g.leases then w
    else
      var each := ExpireEach(w, order, w.g.leases[order[0]].admittedAt);
      Live(each.g, Trim(each.st, now - LEASE_TTL_MS))
  }

  // ----- purge and alarm -----

  function Purge(w: Live, now: int): Live {
    var today := DayOf(now);
    Live(
      w.g.(prefixes := map n | n in w.g.prefixes && n.day >= today :: w.g.prefixes[n],
           days := map d | d in w.g.days && d >= today - DAY_RETENTION_DAYS :: w.g.days[d]),
      w.st.(purgedDay := Some(today)))
  }

  function PurgeOnce(w: Live, now: int): Live {
    if w.st.purgedDay != Some(DayOf(now)) then Purge(w, now) else w
  }

  predicate PollDue(g: Gov, st: StateRow, now: int) {
    && g.neonKey
    && now - st.lastAdmitAt <= NEON_POLL_INTERVAL_MS
    && now - st.lastPollAt >= NEON_POLL_INTERVAL_MS
  }

  /** The earliest of the next poll and the next midnight purge, when there is reason for them. */
  function WantedAlarm(g: Gov, st: StateRow, now: int): Option<int> {
    var poll := if g.neonKey && now - st.lastAdmitAt <= NEON_POLL_INTERVAL_MS
                then Some(Max(now, st.lastPollAt + NEON_POLL_INTERVAL_MS)) else None;
    var purge := if g.prefixes != map[] || g.leases != map[] then Some(NextUtcMidnight(now)) else None;
    if poll.Some? && purge.Some? then Some(Min(poll.value, purge.value))
    else if poll.Some? then poll else purge
  }

  /** Keep one alarm pending no later than wanted. */
  function Schedule(w: Live, now: int): StateRow {
    var wanted := WantedAlarm(w.g, w.st, now);
    var current := if w.st.alarmAt.Some? && w.st.alarmAt.value >= now then w.st.alarmAt else None;
    if wanted.None? || (current.Some? && current.value <= wanted.value) then w.st
    else w.st.(alarmAt := wanted)
  }

  // ----- ground truth and ceilings -----

  function CurrentNeon(st: StateRow, now: int, configured: bool): Option<NeonUsage> {
    if configured && st.neon.Some? && now < st.neon.value.periodEnd then st.neon else None
  }

  predicate GroundTruthFresh(st: StateRow, now: int, configured: bool) {
    var neon := CurrentNeon(st, now, configured);
    neon.Some? && now - neon.value.polledAt <= GROUND_TRUTH_MAX_AGE_MS
  }

  function DailyCeilingS(st: StateRow, now: int, configured: bool): real {
    (if GroundTruthFresh(st, now, configured) then DAILY_CU_HOURS_GROUND_TRUTH
     else DAILY_CU_HOURS_CONSERVATIVE) * 3600.0
  }

  // ----- admission -----

  datatype DenialCode = RateLimited | DailyCapacityReached | CapacityPaused
  datatype DenialScope = ClientScope | GlobalScope | DailyScope | MonthlyScope
  datatype BudgetName = PrefixBudget | GlobalBudget | HeavyBudget | CuDay | EgressDay | CuMonth | Egress | Metadata

  datatype Result =
    | Admitted(id: LeaseId)
    | Denied(code: DenialCode, scope: DenialScope, budget: BudgetName, retryAfterSeconds: int, resumesAt: int)

  function Deny(code: DenialCode, scope: DenialScope, budget: BudgetName, resumesAt: int, now: int): Result {
    Denied(code, scope, budget, SecondsUntil(resumesAt, now), resumesAt)
  }

  /** Milliseconds outside the charged windows that the group and a window starting now would cover. */
  ghost function UncoveredMs(g: Gov, st: StateRow, who: Group, candidate: Interval): nat {
    |Cover(g.leases, who) + Instants(candidate) - Points(st.charged)|
  }

  /** CU-seconds of the month so far: Neon's figure, what was charged since its base, and the live leases. */
  function MonthCuS(st: StateRow, neon: NeonUsage, uncoveredMs: int): real {
    neon.computeTimeS + (st.cuTotalS - neon.cuBaseS) + CuSeconds(uncoveredMs)
  }

  /** Checks 6 and 7: a day's share of egress, or the month's figures where Neon gives them. */
  ghost function MonthlyDenial(g: Gov, st: StateRow, now: int, egressBytes: int, day: DayRow): Option<Result> {
    match CurrentNeon(st, now, g.neonKey)
    case None =>
      if Exceeded(day.egress as real, (EgressHeld(g.leases, OnDay(DayOf(now))) + egressBytes) as real,
                  EGRESS_DAILY_CONSERVATIVE_BYTES) then
        Some(Deny(DailyCapacityReached, DailyScope, EgressDay, NextUtcMidnight(now), now))
      else None
    case Some(neon) =>
      var egress := neon.dataTransferBytes
                    + (st.egressTotal - neon.egressBase + EgressHeld(g.leases, Everyone) + egressBytes) as real;
      var monthCuHours := MonthCuS(st, neon, UncoveredMs(g, st, Everyone, ProvisionalInterval(now))) / 3600.0;
      if egress >= EGRESS_STOP_BYTES then
        Some(Deny(CapacityPaused, MonthlyScope, Egress, neon.periodEnd, now))
      else if monthCuHours > AllowedAt(now, neon.periodStart, neon.periodEnd) then
        Some(Deny(CapacityPaused, MonthlyScope, CuMonth,
                  PacingResumesAt(monthCuHours, neon.periodStart, neon.periodEnd), now))
      else None
  }

  /** Checks 4 to 7, once stale leases have expired. */
  ghost function ComputeDenial(g: Gov, st: StateRow, now: int, prefix: Prefix, egressBytes: int): Option<Result> {
    var today, midnight := DayOf(now), NextUtcMidnight(now);
    var day, use := DayRowOf(g.days, today), UseOf(g.prefixes, Network(today, prefix));
    var candidate := ProvisionalInterval(now);
    var ceilingS := DailyCeilingS(st, now, g.neonKey);
    if Exceeded(use.cuS, CuSeconds(UncoveredMs(g, st, OnNetwork(Network(today, prefix)), candidate)),
                PREFIX_DAILY_CU_SHARE * ceilingS) then
      Some(Deny(RateLimited, ClientScope, PrefixBudget, midnight, now))
    else if Exceeded(day.cuS, CuSeconds(UncoveredMs(g, st, OnDay(today), candidate)), ceilingS) then
      Some(Deny(DailyCapacityReached, DailyScope, CuDay, midnight, now))
    else
      MonthlyDenial(g, st, now, egressBytes, day)
  }

  /** The rows an admission writes. */
  function Issue(g: Gov, id: LeaseId, l: Lease): Gov {
    var day, use := DayRowOf(g.days, l.day), UseOf(g.prefixes, NetworkOf(l));
    g.(leases := g.leases[id := l],
       days := g.days[l.day := if l.lookup == 1 then day.(lookups := day.lookups + 1)
                               else day.(admitted := day.admitted + 1, heavy := day.heavy + l.heavy)],
       prefixes := g.prefixes[NetworkOf(l) := if l.lookup == 1 then use.(lookups := use.lookups + 1)
                                              else use.(count := use.count + 1, attempts := use.attempts + 1)],
       hist := g.hist.(issued := g.hist.issued[id := l]))
  }

  datatype Outcome = Outcome(g: Gov, result: Result)

  function AnalysisLease(now: int, prefix: Prefix, heavy: bool): Lease {
    Lease(DayOf(now), prefix, if heavy then 1 else 0, now, if heavy then HEAVY_EGRESS_BYTES else LIGHT_EGRESS_BYTES, 0)
  }

  function LookupLease(now: int, prefix: Prefix): Lease {
    Lease(DayOf(now), prefix, 0, now, SNAPSHOT_READ_EGRESS_BYTES, 1)
  }

  /** The count checks an admission makes before anything else. */
  function CountDenial(g: Gov, now: int, l: Lease): Option<Result> {
    var midnight := NextUtcMidnight(now);
    var use, day := UseOf(g.prefixes, NetworkOf(l)), DayRowOf(g.days, l.day);
    if l.lookup == 1 then
      if Reached(use.lookups, PREFIX_DAILY_LOOKUPS) then Some(Deny(RateLimited, ClientScope, Metadata, midnight, now))
      else if Reached(day.lookups, GLOBAL_DAILY_LOOKUPS)
          then Some(Deny(DailyCapacityReached, GlobalScope, Metadata, midnight, now))
      else None
    else
      if Reached(use.count, PREFIX_DAILY_ANALYSES) || Reached(use.attempts, PREFIX_DAILY_ADMISSIONS) then
        Some(Deny(RateLimited, ClientScope, PrefixBudget, midnight, now))
      else if Reached(day.admitted, GLOBAL_DAILY_ANALYSES) then
        Some(Deny(DailyCapacityReached, GlobalScope, GlobalBudget, midnight, now))
      else if l.heavy == 1 && Reached(day.heavy, HEAVY_DAILY_ANALYSES) then
        Some(Deny(DailyCapacityReached, DailyScope, HeavyBudget, midnight, now))
      else None
  }

  /** Admit `l`, an analysis's or a lookup's lease as of `now`, under the fresh id, or say why not. */
  ghost function Admission(g: Gov, now: int, id: LeaseId, l: Lease, order: seq<LeaseId>): Outcome {
    var early := CountDenial(g, now, l);
    if early.Some? then Outcome(g, early.value)
    else
      var expired := Expire(Live(g, Load(g.row, now)), now, order);
      var g1 := if order == [] then g else Save(expired.g, expired.st);
      var denial := ComputeDenial(g1, expired.st, now, l.prefix, l.egress);
      if denial.Some? then Outcome(g1, denial.value)
      else Outcome(Admit(Live(g1, expired.st), now, id, l), Admitted(id))
  }

  /** What an admission that passed every check does. */
  function Admit(w: Live, now: int, id: LeaseId, l: Lease): Gov {
    var st := if l.lookup == 1 then w.st else w.st.(lastAdmitAt := now);
    var purged := PurgeOnce(Live(Issue(w.g, id, l), st), now);
    Save(purged.g, Schedule(purged, now))
  }

  // ----- the alarm, before and after its fetch -----

  /** What an alarm does before it decides to poll: expiry and purge. */
  ghost function AlarmWork(g: Gov, now: int, order: seq<LeaseId>): Live {
    PurgeOnce(Expire(Live(g, Load(g.row, now).(alarmAt := None)), now, order), now)
  }

  /** The alarm's first step, up to the fetch; without a poll it schedules the next alarm at once. */
  ghost function AlarmStart(g: Gov, now: int, order: seq<LeaseId>): Gov {
    var w := AlarmWork(g, now, order);
    if PollDue(w.g, w.st, now) then
      Save(w.g.(hist := w.g.hist.(polls := w.g.hist.polls + {now})), w.st.(lastPollAt := now))
    else
      var saved := Save(w.g, w.st);
      Save(saved, Schedule(Live(saved, Load(saved.row, now)), now))
  }

  datatype PollResult = Failed(error: string) | Usage(computeTimeS: real, dataTransferBytes: real, periodStart: int,
                                                      periodEnd: int)

  /** The figures of a poll begun at `polledAt`, with the bridge bases they are stored with. */
  function PolledUsage(g: Gov, st: StateRow, polledAt: int, r: PollResult): NeonUsage
    requires r.Usage?
  {
    var today := DayRowOf(g.days, DayOf(polledAt));
    NeonUsage(
      polledAt, r.computeTimeS, r.dataTransferBytes, r.periodStart, r.periodEnd,
      if st.neon.Some? then st.neon.value.cuAtPollS
      else if today.cuS < 0.0 then 0.0 else MaxReal(0.0, st.cuTotalS - today.cuS),
      if st.neon.Some? then st.neon.value.egressAtPoll
      else if today.egress < 0 then 0 else Max(0, st.egressTotal - today.egress),
      st.cuTotalS, st.egressTotal)
  }

  function ApplyPoll(g: Gov, st: StateRow, now: int, polledAt: int, r: PollResult): StateRow {
    match r
    case Failed(error) => st.(pollError := Some(error))
    case Usage(_, _, _, _) =>
      var neon := SanitizeNeon(Is(EncodeNeon(PolledUsage(g, st, polledAt, r))), now, st.cuTotalS, st.egressTotal);
      if neon.None? then st.(pollError := Some("invalid_response")) else st.(pollError := None, neon := neon)
  }

  /** Whether the poll's figures become the ground truth. */
  predicate Applies(g: Gov, st: StateRow, now: int, polledAt: int, r: PollResult) {
    r.Usage? && SanitizeNeon(Is(EncodeNeon(PolledUsage(g, st, polledAt, r))), now, st.cuTotalS, st.egressTotal).Some?
  }

  /** The alarm's second step, when the fetch it began at `polledAt` has ended. */
  function AlarmFinish(g: Gov, now: int, polledAt: int, r: PollResult): Gov {
    var loaded := Load(g.row, now);
    var applied := if Applies(g, loaded, now, polledAt, r) then g.hist.applied + [|g.hist.ledger|] else g.hist.applied;
    var g1 := Save(g.(hist := g.hist.(polls := g.hist.polls - {polledAt}, applied := applied)),
                   ApplyPoll(g, loaded, now, polledAt, r));
    Save(g1, Schedule(Live(g1, Load(g1.row, now)), now))
  }

  // ----- restart -----

  predicate LeasePossible(l: Lease, now: int) {
    && l.admittedAt <= now && l.day == DayOf(l.admittedAt)
    && 0 <= l.egress <= MAX_LEASE_EGRESS_BYTES
    && (l.heavy == 0 || l.heavy == 1) && (l.lookup == 0 || l.lookup == 1)
  }

  /** The instance starts: rows no version of the program writes are deleted. */
  function Restart(g: Gov, now: int): Gov {
    g.(days := map d | d in g.days && d <= DayOf(now) :: g.days[d],
       prefixes := map n | n in g.prefixes && n.day <= DayOf(now) :: g.prefixes[n],
       leases := map id | id in g.leases && LeasePossible(g.leases[id], now) :: g.leases[id])
  }

  // ----- runs -----

  datatype Event =
    | Request(now: int, id: LeaseId, lease: Lease, order: seq<LeaseId>)
    | Settlement(now: int, id: LeaseId, kind: SettleKind, dbMs: Option<int>)
    | Alarm(now: int, order: seq<LeaseId>)
    | PollEnds(now: int, polledAt: int, result: PollResult)
    | Starts(now: int)

  function Tick(g: Gov, now: int): Gov { g.(hist := g.hist.(clock := now)) }

  ghost function Next(g: Gov, e: Event): Gov {
    var t := Tick(g, e.now);
    match e
    case Request(now, id, lease, order) => Admission(t, now, id, lease, order).g
    case Settlement(now, id, kind, dbMs) => Settle(t, now, id, kind, dbMs)
    case Alarm(now, order) => AlarmStart(t, now, order)
    case PollEnds(now, polledAt, result) => AlarmFinish(t, now, polledAt, result)
    case Starts(now) => Restart(t, now)
  }

  /** What can happen next: the clock never goes back, lease ids are fresh, a poll ends only if it began. */
  ghost predicate Possible(g: Gov, e: Event) {
    && g.hist.clock <= e.now
    && match e
       case Request(now, id, lease, order) =>
         && id !in g.hist.issued
         && (lease == LookupLease(now, lease.prefix) || exists heavy ::
             lease == AnalysisLease(now, lease.prefix, heavy))
         && StaleOrder(g.leases, now, order)
       case Settlement(_, _, _, _) => true
       case Alarm(now, order) => StaleOrder(g.leases, now, order)
       case PollEnds(_, polledAt, _) => polledAt in g.hist.polls
       case Starts(_) => true
  }

  /** The governor after a run of events, from its first start. */
  ghost function After(neonKey: bool, run: seq<Event>): Gov {
    if run == [] then Start(neonKey) else Next(After(neonKey, run[..|run| - 1]), run[|run| - 1])
  }

  ghost predicate IsRun(neonKey: bool, run: seq<Event>) {
    run == [] || (IsRun(neonKey, run[..|run| - 1]) && Possible(After(neonKey, run[..|run| - 1]), run[|run| - 1]))
  }
}
