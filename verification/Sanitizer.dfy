/** What loading makes of stored state (edge/src/governor.ts:801-821, 1110-1196). */
module Sanitizer {
  import opened Budget
  import opened Pacing
  import opened GovernorModel

  ghost predicate WindowsClean(xs: seq<Interval>, now: int) {
    && Normal(xs)
    && forall i :: 0 <= i < |xs| ==> 0 <= xs[i].start && xs[i].end <= now + MAX_WINDOW_AHEAD_MS
  }

  /** Figures that were polled, over a billing period, with bases no higher than the counters they came from. */
  predicate NeonClean(n: NeonUsage, now: int, cuTotalS: real, egressTotal: int) {
    && 0 <= n.polledAt <= now
    && 0.0 <= n.computeTimeS && 0.0 <= n.dataTransferBytes
    && 0 <= n.periodStart < n.periodEnd <= n.periodStart + 32 * DAY_MS && n.periodEnd <= n.polledAt + 32 * DAY_MS
    && 0.0 <= n.cuBaseS <= n.cuAtPollS <= cuTotalS
    && 0 <= n.egressBase <= n.egressAtPoll <= egressTotal
  }

  /** All of a clean state but the length of the poll error. */
  ghost predicate Sound(st: StateRow, now: int) {
    && WindowsClean(st.charged, now)
    && st.cuTotalS >= 0.0 && st.egressTotal >= 0
    && 0 <= st.lastAdmitAt <= now && 0 <= st.lastPollAt <= now
    && (st.purgedDay.Some? ==> st.purgedDay.value <= DayOf(now))
    && (st.alarmAt.Some? ==> st.alarmAt.value >= 0)
    && (st.neon.Some? ==> NeonClean(st.neon.value, now, st.cuTotalS, st.egressTotal))
  }

  ghost predicate Clean(st: StateRow, now: int) {
    Sound(st, now) && CutError(st.pollError) == st.pollError
  }

  lemma {:induction false} PossibleWindowsPoints(ws: seq<RawWindow>, now: int)
    ensures forall t :: t in Points(PossibleWindows(ws, now)) ==> 0 <= t < now + MAX_WINDOW_AHEAD_MS
  {
    if ws != [] {
      var n := |ws| - 1;
      PossibleWindowsPoints(ws[..n], now);
      if WindowPossible(ws[n], now) {
        PointsOfSnoc(PossibleWindows(ws[..n], now), Interval(ws[n].start.value, ws[n].end.value));
      }
    }
  }

  lemma EndsArePoints(xs: seq<Interval>, i: nat)
    requires Normal(xs) && i < |xs|
    ensures xs[i].start in Points(xs) && xs[i].end - 1 in Points(xs)
  {
    PointsAre(xs, xs[i].start);
    PointsAre(xs, xs[i].end - 1);
  }

  lemma BoundedPointsBoundWindows(xs: seq<Interval>, now: int)
    requires Normal(xs)
    requires forall t :: t in Points(xs) ==> 0 <= t < now + MAX_WINDOW_AHEAD_MS
    ensures WindowsClean(xs, now)
  {
    forall i | 0 <= i < |xs| ensures 0 <= xs[i].start && xs[i].end <= now + MAX_WINDOW_AHEAD_MS {
      EndsArePoints(xs, i);
    }
  }

  lemma {:induction false} CleanWindowsAreKept(xs: seq<Interval>, now: int)
    requires forall i :: 0 <= i < |xs| ==> 0 <= xs[i].start && 0 <= xs[i].end <= now + MAX_WINDOW_AHEAD_MS
    ensures PossibleWindows(EncodeWindows(xs), now) == xs
  {
    if xs != [] {
      var n := |xs| - 1;
      CleanWindowsAreKept(xs[..n], now);
      assert EncodeWindows(xs)[..n] == EncodeWindows(xs[..n]);
      assert xs == xs[..n] + [xs[n]];
    }
  }

  /** Whatever was stored, what is loaded has windows, times and bases this program could have written. */
  lemma SanitizedIsClean(stored: Raw<RawState>, now: int)
    requires now >= 0
    ensures Clean(SanitizeState(stored, now), now)
  {
    if stored.Is? && stored.value.charged.Is? {
      var kept := PossibleWindows(stored.value.charged.value, now);
      PossibleWindowsPoints(stored.value.charged.value, now);
      MergedMeaning(kept);
      BoundedPointsBoundWindows(Merged(kept), now);
    }
  }

  lemma CleanWindowsLoad(xs: seq<Interval>, now: int)
    requires WindowsClean(xs, now)
    ensures Merged(PossibleWindows(EncodeWindows(xs), now)) == xs
  {
    CleanWindowsAreKept(xs, now);
    MergedIsTheNormalForm(xs, xs);
  }

  lemma CleanNeonLoads(n: NeonUsage, now: int, cuTotalS: real, egressTotal: int)
    requires NeonClean(n, now, cuTotalS, egressTotal)
    ensures SanitizeNeon(Is(EncodeNeon(n)), now, cuTotalS, egressTotal) == Some(n)
  {
  }

  /** What loading makes of a sound state: nothing but the cut of its error text. */
  lemma LoadSound(st: StateRow, now: int)
    requires Sound(st, now)
    ensures SanitizeState(Is(EncodeState(st)), now) == st.(pollError := CutError(st.pollError))
  {
    var loaded := SanitizeState(Is(EncodeState(st)), now);
    assert loaded.charged == st.charged by {
      CleanWindowsLoad(st.charged, now);
    }
    assert loaded.neon == st.neon by {
      if st.neon.Some? {
        CleanNeonLoads(st.neon.value, now, st.cuTotalS, st.egressTotal);
      }
    }
  }

  /** A load returns what was saved if and only if the saved state is clean. */
  lemma TransparentIffClean(st: StateRow, now: int)
    requires now >= 0
    ensures SanitizeState(Is(EncodeState(st)), now) == st <==> Clean(st, now)
  {
    SanitizedIsClean(Is(EncodeState(st)), now);
    if Clean(st, now) {
      LoadSound(st, now);
    }
  }

  /** What is clean stays clean as time goes by. */
  lemma SoundLater(st: StateRow, now: int, later: int)
    requires Sound(st, now) && now <= later
    ensures Sound(st, later)
  {
    DayOfIsMonotone(now, later);
  }

  /** Loading what was loaded, then or later, changes nothing. */
  lemma SanitizeIsAFixpoint(stored: Raw<RawState>, now: int, later: int)
    requires 0 <= now <= later
    ensures var once := SanitizeState(stored, now); SanitizeState(Is(EncodeState(once)), later) == once
  {
    var once := SanitizeState(stored, now);
    SanitizedIsClean(stored, now);
    SoundLater(once, now, later);
    LoadSound(once, later);
  }

  /** A stored pair of times that can be a window: not negative, and ending at most 390 s ahead. */
  predicate CanBeWindow(w: RawWindow, now: int) {
    && w.Pair? && w.start.Is? && w.end.Is?
    && 0 <= w.start.value && 0 <= w.end.value <= now + 390_000
  }

  lemma {:induction false} PossibleWindowsCover(ws: seq<RawWindow>, now: int, t: int)
    ensures t in Points(PossibleWindows(ws, now))
            <==> exists i :: 0 <= i < |ws| && CanBeWindow(ws[i], now) && ws[i].start.value <= t < ws[i].end.value
  {
    if ws != [] {
      var n := |ws| - 1;
      PossibleWindowsCover(ws[..n], now, t);
      assert forall i :: 0 <= i < n ==> ws[..n][i] == ws[i];
      if WindowPossible(ws[n], now) {
        PointsOfSnoc(PossibleWindows(ws[..n], now), Interval(ws[n].start.value, ws[n].end.value));
      }
    }
  }

  /** Whatever else was stored beside it, loading keeps each thing that can be, and takes its initial value for any
      other: the union of the possible windows, counters and times, and figures that a poll can have left. */
  lemma KeepsThePossible(raw: RawState, now: int)
    ensures var st := SanitizeState(Is(raw), now);
            && (raw.charged.Is? ==>
                  forall t :: t in Points(st.charged) <==>
                    exists i :: 0 <= i < |raw.charged.value| && CanBeWindow(raw.charged.value[i], now)
                                && raw.charged.value[i].start.value <= t < raw.charged.value[i].end.value)
            && (raw.charged.Other? ==> st.charged == [])
            && st.cuTotalS == (if raw.cuTotalS.Is? && raw.cuTotalS.value >= 0.0 then raw.cuTotalS.value else 0.0)
            && st.egressTotal == (if raw.egressTotal.Is? && raw.egressTotal.value >= 0
                                  then raw.egressTotal.value else 0)
            && st.lastAdmitAt == TimeOr0(raw.lastAdmitAt, now) && st.lastPollAt == TimeOr0(raw.lastPollAt, now)
            && st.purgedDay == (if raw.purgedDay.Is? && raw.purgedDay.value * 86_400_000 <= now
                                then Some(raw.purgedDay.value) else None)
            && st.alarmAt == (if raw.alarmAt.Is? && raw.alarmAt.value >= 0 then Some(raw.alarmAt.value) else None)
            && (st.neon.Some? ==> raw.neon == Is(EncodeNeon(st.neon.value)))
            && (forall n :: raw.neon == Is(EncodeNeon(n)) ==>
                  (st.neon == Some(n) <==> NeonClean(n, now, st.cuTotalS, st.egressTotal)))
    ensures SanitizeState(Other, now) == INITIAL_STATE
  {
    if raw.charged.Is? {
      var kept := PossibleWindows(raw.charged.value, now);
      MergedMeaning(kept);
      forall t ensures t in Points(Merged(kept)) <==>
                       exists i :: 0 <= i < |raw.charged.value| && CanBeWindow(raw.charged.value[i], now)
                                   && raw.charged.value[i].start.value <= t < raw.charged.value[i].end.value {
        PossibleWindowsCover(raw.charged.value, now, t);
      }
    }
    forall n | raw.neon == Is(EncodeNeon(n))
      ensures var st := SanitizeState(Is(raw), now);
              st.neon == Some(n) <==> NeonClean(n, now, st.cuTotalS, st.egressTotal)
    {
    }
  }

  /** A time that is past, or 0. */
  function TimeOr0(t: Raw<int>, now: int): int {
    if t.Is? && 0 <= t.value <= now then t.value else 0
  }
}
