/** The month-to-date pacing line and the times denials name (edge/src/budget.ts).
    Times are integer milliseconds, shares and CU-hours exact reals.
 */
module Pacing {
  import opened Budget

  const DAY_MS: int := 86_400_000
  const PACING_FLOOR_CU_HOURS := 10.0
  const PACING_SLOPE_CU_HOURS := 75.0
  const PACING_CAP_CU_HOURS := 85.0

  /** The UTC day containing `ms`, counted from 1970-01-01. */
  function DayOf(ms: int): int {
    ms / DAY_MS
  }

  function NextUtcMidnight(ms: int): int {
    (DayOf(ms) + 1) * DAY_MS
  }

  lemma MidnightIsNext(ms: int)
    ensures ms < NextUtcMidnight(ms) <= ms + DAY_MS
    ensures DayOf(NextUtcMidnight(ms)) == DayOf(ms) + 1
    ensures DayOf(NextUtcMidnight(ms) - 1) == DayOf(ms)
  {
  }

  lemma DayOfIsMonotone(a: int, b: int)
    requires a <= b
    ensures DayOf(a) <= DayOf(b)
  {
  }

  function Ceil(x: real): int {
    -((-x).Floor)
  }

  function MinReal(a: real, b: real): real { if a <= b then a else b }

  function MaxReal(a: real, b: real): real { if a >= b then a else b }

  function ElapsedShare(now: int, periodStart: int, periodEnd: int): real {
    if periodEnd <= periodStart then 1.0
    else MinReal(1.0, MaxReal(0.0, (now - periodStart) as real / (periodEnd - periodStart) as real))
  }

  function PacingAllowance(share: real): real {
    MinReal(PACING_CAP_CU_HOURS, PACING_FLOOR_CU_HOURS + PACING_SLOPE_CU_HOURS * share)
  }

  function PacingResumesAt(needed: real, periodStart: int, periodEnd: int): int {
    if needed > PACING_CAP_CU_HOURS then periodEnd
    else
      var share := MaxReal(0.0, (needed - PACING_FLOOR_CU_HOURS) / PACING_SLOPE_CU_HOURS);
      Min(periodEnd, periodStart + Ceil(share * (periodEnd - periodStart) as real))
  }

  function SecondsUntil(at: int, now: int): int {
    Max(1, Ceil((at - now) as real / 1000.0))
  }

  /** What the line allows at a time of the period. */
  function AllowedAt(now: int, periodStart: int, periodEnd: int): real {
    PacingAllowance(ElapsedShare(now, periodStart, periodEnd))
  }

  lemma CeilIsLeast(x: real, k: int)
    ensures Ceil(x) <= k <==> x <= k as real
  {
    var f := (-x).Floor;
    assert f as real <= -x < f as real + 1.0;
    if x <= k as real {
      assert (-k) as real <= -x;
      assert (-k) as real < (f + 1) as real;
    }
  }

  lemma Scale(a: real, b: real, len: real)
    requires len > 0.0
    ensures a / len >= b <==> a >= b * len
  {
    var q := a / len;
    assert q * len == a;
    if q >= b {
      assert q * len >= b * len;
    } else {
      assert q * len < b * len;
    }
  }

  lemma AllowedIsMonotone(a: int, b: int, periodStart: int, periodEnd: int)
    requires a <= b
    ensures AllowedAt(a, periodStart, periodEnd) <= AllowedAt(b, periodStart, periodEnd)
  {
    if periodEnd > periodStart {
      var len := (periodEnd - periodStart) as real;
      Scale((b - periodStart) as real, (a - periodStart) as real / len, len);
    }
  }

  /** At or above the floor and up to the cap, the line reaches a need when the elapsed time does. */
  lemma AllowedIff(needed: real, t: int, periodStart: int, periodEnd: int)
    requires periodStart < periodEnd && PACING_FLOOR_CU_HOURS < needed <= PACING_CAP_CU_HOURS
    ensures AllowedAt(t, periodStart, periodEnd) >= needed
       <==> (t - periodStart) as real
            >= (needed - PACING_FLOOR_CU_HOURS) / PACING_SLOPE_CU_HOURS * (periodEnd - periodStart) as real
  {
    var len := (periodEnd - periodStart) as real;
    var share := (needed - PACING_FLOOR_CU_HOURS) / PACING_SLOPE_CU_HOURS;
    var elapsed := (t - periodStart) as real / len;
    Scale((t - periodStart) as real, share, len);
    assert 0.0 < share <= 1.0;
    assert ElapsedShare(t, periodStart, periodEnd) >= share <==> elapsed >= share;
    assert AllowedAt(t, periodStart, periodEnd) >= needed <==> ElapsedShare(t, periodStart, periodEnd) >= share;
  }

  /** The returned time is the first at which the line allows the need, whenever the period has one. */
  lemma ResumesAtIsTheInverse(needed: real, t: int, periodStart: int, periodEnd: int)
    requires periodStart < periodEnd && PACING_FLOOR_CU_HOURS < needed <= PACING_CAP_CU_HOURS
    ensures periodStart < PacingResumesAt(needed, periodStart, periodEnd) <= periodEnd
    ensures AllowedAt(t, periodStart, periodEnd) >= needed <==> PacingResumesAt(needed, periodStart, periodEnd) <= t
  {
    var share := (needed - PACING_FLOOR_CU_HOURS) / PACING_SLOPE_CU_HOURS;
    var len := (periodEnd - periodStart) as real;
    var need := share * len;
    assert 0.0 < share <= 1.0;
    assert 0.0 < need <= len by {
      Scale(need, 0.0, len);
      assert share * len <= 1.0 * len;
    }
    CeilIsLeast(need, t - periodStart);
    CeilIsLeast(need, periodEnd - periodStart);
    CeilIsLeast(need, 0);
    AllowedIff(needed, t, periodStart, periodEnd);
  }

  /** Outside that range the answer is trivial: never within the period, or from its start. */
  lemma ResumesAtOutsideTheLine(needed: real, t: int, periodStart: int, periodEnd: int)
    requires periodStart < periodEnd
    ensures needed > PACING_CAP_CU_HOURS ==>
              AllowedAt(t, periodStart, periodEnd) < needed
                  && PacingResumesAt(needed, periodStart, periodEnd) == periodEnd
    ensures needed <= PACING_FLOOR_CU_HOURS ==>
              AllowedAt(t, periodStart, periodEnd) >= needed
                  && PacingResumesAt(needed, periodStart, periodEnd) == periodStart
  {
    if needed <= PACING_FLOOR_CU_HOURS {
      assert (needed - PACING_FLOOR_CU_HOURS) / PACING_SLOPE_CU_HOURS <= 0.0;
      assert 0.0 * (periodEnd - periodStart) as real == 0.0;
      CeilIsLeast(0.0, 0);
      CeilIsLeast(0.0, -1);
    }
  }

  /** A denial by the line names a time still to come. */
  lemma ResumesLater(needed: real, now: int, periodStart: int, periodEnd: int)
    requires periodStart < periodEnd && now < periodEnd
    requires needed > AllowedAt(now, periodStart, periodEnd)
    ensures now < PacingResumesAt(needed, periodStart, periodEnd) <= periodEnd
  {
    if needed <= PACING_CAP_CU_HOURS {
      ResumesAtOutsideTheLine(needed, now, periodStart, periodEnd);
      ResumesAtIsTheInverse(needed, now, periodStart, periodEnd);
    }
  }

  /** `Retry-After` is the fewest whole seconds, at least one, that reach the time. */
  lemma SecondsReach(at: int, now: int)
    ensures SecondsUntil(at, now) >= 1 && now + 1000 * SecondsUntil(at, now) >= at
    ensures forall s: int :: 1 <= s && now + 1000 * s >= at ==> SecondsUntil(at, now) <= s
  {
    var x := (at - now) as real / 1000.0;
    forall s: int ensures Ceil(x) <= s <==> now + 1000 * s >= at {
      CeilIsLeast(x, s);
      assert x <= s as real <==> (at - now) as real <= 1000.0 * s as real;
      assert 1000.0 * s as real == (1000 * s) as real;
    }
  }

  /** The share of the period that has passed, between 0 and 1. */
  lemma ShareRuns(t: int, periodStart: int, periodEnd: int)
    requires periodStart < periodEnd
    ensures var share := ElapsedShare(t, periodStart, periodEnd);
            && 0.0 <= share <= 1.0 && (t <= periodStart ==> share == 0.0) && (t >= periodEnd ==> share == 1.0)
            && (periodStart <= t <= periodEnd ==>
                  share * (periodEnd - periodStart) as real == (t - periodStart) as real)
  {
    var len, past := (periodEnd - periodStart) as real, (t - periodStart) as real;
    Scale(past, 0.0, len);
    Scale(past, 1.0, len);
    assert past / len * len == past;
    if t == periodStart {
      assert past == 0.0;
    }
  }

  /** The line allows 10 CU-h until the period begins and 85 from its end on, and runs straight in between. */
  lemma LineRunsFrom10To85(t: int, periodStart: int, periodEnd: int)
    requires periodStart < periodEnd
    ensures t <= periodStart ==> AllowedAt(t, periodStart, periodEnd) == 10.0
    ensures t >= periodEnd ==> AllowedAt(t, periodStart, periodEnd) == 85.0
    ensures periodStart <= t <= periodEnd ==>
              (AllowedAt(t, periodStart, periodEnd) - 10.0) * (periodEnd - periodStart) as real
              == 75.0 * (t - periodStart) as real
  {
    ShareRuns(t, periodStart, periodEnd);
    hide ElapsedShare;
    var share := ElapsedShare(t, periodStart, periodEnd);
    assert AllowedAt(t, periodStart, periodEnd) == 10.0 + 75.0 * share;
    Product(75.0, share, (periodEnd - periodStart) as real);
  }

  lemma Product(a: real, b: real, c: real)
    ensures a * b * c == a * (b * c)
  {
  }
}
