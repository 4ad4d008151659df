/** Sequences of settlements: what they are charged, in whatever order (edge/src/budget.ts:94-124). */
module Settlements {
  import opened Budget

  datatype Settlement = Settlement(start: int, end: int, keepAfter: int)

  function WindowOf(s: Settlement): Interval {
    Window(s.start, s.end)
  }

  /** The windows remembered after settling in this order, from none. */
  function ChargedAfter(run: seq<Settlement>): seq<Interval> {
    if run == [] then []
    else
      var last := run[|run| - 1];
      AddCharged(ChargedAfter(run[..|run| - 1]), WindowOf(last), last.keepAfter)
  }

  /** The sum of the charges made. */
  ghost function TotalMs(run: seq<Settlement>): nat {
    if run == [] then 0
    else
      var rest := run[..|run| - 1];
      TotalMs(rest) + AddedMs(ChargedAfter(rest), WindowOf(run[|run| - 1]))
  }

  ghost function EverCharged(run: seq<Settlement>): set<int> {
    if run == [] then {}
    else EverCharged(run[..|run| - 1]) + Instants(WindowOf(run[|run| - 1]))
  }

  /** The instants of settlement `n` that were charged before and trimmed since. */
  ghost function Forgotten(run: seq<Settlement>, n: nat): set<int>
    requires n < |run|
  {
    Instants(WindowOf(run[n])) * EverCharged(run[..n]) - Points(ChargedAfter(run[..n]))
  }

  /** Settlement `n` finds every earlier window it overlaps still remembered. */
  ghost predicate FindsAll(run: seq<Settlement>, n: nat)
    requires n < |run|
  {
    Forgotten(run, n) == {}
  }

  lemma {:induction false} RememberedWasCharged(run: seq<Settlement>)
    ensures Points(ChargedAfter(run)) <= EverCharged(run)
  {
    if run != [] {
      var n := |run| - 1;
      RememberedWasCharged(run[..n]);
      AddChargedMeaning(ChargedAfter(run[..n]), WindowOf(run[n]), run[n].keepAfter);
    }
  }

  /** The milliseconds charged a second time, because they were trimmed in between. */
  ghost function RechargedMs(run: seq<Settlement>): nat {
    if run == [] then 0
    else
      RechargedMs(run[..|run| - 1]) + |Forgotten(run, |run| - 1)|
  }

  /** Whatever the trimming horizons, the charges are the length of the union, plus what was
      trimmed and met again: trimming can only over-charge. */
  lemma {:induction false} OnlyOverCharges(run: seq<Settlement>)
    ensures TotalMs(run) == |EverCharged(run)| + RechargedMs(run)
  {
    if run != [] {
      var n := |run| - 1;
      OnlyOverCharges(run[..n]);
      RememberedWasCharged(run[..n]);
      ChargeGrows(EverCharged(run[..n]), Points(ChargedAfter(run[..n])), Instants(WindowOf(run[n])));
    }
  }

  lemma {:induction false} FindsAllIfNothingRecharged(run: seq<Settlement>, n: nat)
    requires RechargedMs(run) == 0 && n < |run|
    ensures FindsAll(run, n)
  {
    if n < |run| - 1 {
      var rest := run[..|run| - 1];
      FindsAllIfNothingRecharged(rest, n);
      assert rest[..n] == run[..n];
    }
  }

  lemma {:induction false} NothingRechargedIfFindsAll(run: seq<Settlement>)
    requires forall n :: 0 <= n < |run| ==> FindsAll(run, n)
    ensures RechargedMs(run) == 0
  {
    if run != [] {
      var rest := run[..|run| - 1];
      forall m | 0 <= m < |rest| ensures FindsAll(rest, m) {
        assert FindsAll(run, m);
        assert rest[..m] == run[..m];
      }
      NothingRechargedIfFindsAll(rest);
      assert FindsAll(run, |run| - 1);
    }
  }

  /** The total is exactly the union if and only if no settlement overlaps a window trimmed before it. */
  lemma ExactIffNothingForgotten(run: seq<Settlement>)
    ensures TotalMs(run) == |EverCharged(run)| <==> forall n :: 0 <= n < |run| ==> FindsAll(run, n)
  {
    OnlyOverCharges(run);
    if RechargedMs(run) == 0 {
      forall n | 0 <= n < |run| ensures FindsAll(run, n) {
        FindsAllIfNothingRecharged(run, n);
      }
    } else if forall n :: 0 <= n < |run| ==> FindsAll(run, n) {
      NothingRechargedIfFindsAll(run);
    }
  }

  /** No window reaches behind the horizon of an earlier settlement. */
  predicate NoneReachesBehind(run: seq<Settlement>) {
    forall i, j :: 0 <= i < j < |run| ==> run[i].keepAfter <= run[j].start
  }

  lemma {:induction false} ForgottenIsBehind(run: seq<Settlement>, floor: int)
    requires forall i :: 0 <= i < |run| ==> run[i].keepAfter <= floor
    ensures forall t :: t in EverCharged(run) && t >= floor ==> t in Points(ChargedAfter(run))
  {
    if run != [] {
      var n := |run| - 1;
      ForgottenIsBehind(run[..n], floor);
      AddChargedMeaning(ChargedAfter(run[..n]), WindowOf(run[n]), run[n].keepAfter);
    }
  }

  lemma ChargesTheUnion(run: seq<Settlement>)
    requires NoneReachesBehind(run)
    ensures TotalMs(run) == |EverCharged(run)|
  {
    forall n | 0 <= n < |run| ensures FindsAll(run, n) {
      ForgottenIsBehind(run[..n], run[n].start);
    }
    ExactIffNothingForgotten(run);
  }

  function Windows(run: seq<Settlement>): seq<Interval> {
    seq(|run|, i requires 0 <= i < |run| => WindowOf(run[i]))
  }

  lemma {:induction false} EverChargedIsThePoints(run: seq<Settlement>)
    ensures EverCharged(run) == Points(Windows(run))
  {
    if run != [] {
      var n := |run| - 1;
      EverChargedIsThePoints(run[..n]);
      assert Windows(run) == Windows(run[..n]) + [WindowOf(run[n])];
      PointsOfSnoc(Windows(run[..n]), WindowOf(run[n]));
    }
  }

  /** The same analyses settling in another order, at other times, are charged the same total. */
  lemma OrderIndependent(a: seq<Settlement>, b: seq<Settlement>)
    requires multiset(Windows(a)) == multiset(Windows(b))
    requires NoneReachesBehind(a) && NoneReachesBehind(b)
    ensures TotalMs(a) == TotalMs(b)
  {
    ChargesTheUnion(a);
    ChargesTheUnion(b);
    EverChargedIsThePoints(a);
    EverChargedIsThePoints(b);
    SameElementsSamePoints(Windows(a), Windows(b));
  }
}
