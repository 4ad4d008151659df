/** Interval arithmetic of the compute charge model (edge/src/budget.ts).

    Times are integer milliseconds, so a list of half-open intervals denotes a
    finite set of instants and the length of a union is the size of that set.
 */
module Budget {

  /** Neon suspends this long after the last query; the whole tail is charged. */
  const NEON_IDLE_TAIL_MS: int := 300_000

  /** DB-busy time assumed for an admitted analysis until it settles. */
  const PROVISIONAL_BUSY_MS: int := 90_000

  /** Slack before a settled analysis's DB time. */
  const DB_START_MARGIN_MS: int := 5_000

  /** The compute size every charged second is charged at. */
  const NEON_MAX_CU := 2.0

  datatype Option<+T> = None | Some(value: T)

  datatype Interval = Interval(start: int, end: int)

  function CuSeconds(ms: int): real {
    NEON_MAX_CU * (ms as real) / 1000.0
  }

  function ProvisionalInterval(admittedAt: int): Interval {
    Interval(admittedAt, admittedAt + PROVISIONAL_BUSY_MS + NEON_IDLE_TAIL_MS)
  }

  function DbStart(admittedAt: int, settledAt: int, dbMs: Option<int>): int {
    match dbMs
    case None => admittedAt
    case Some(ms) =>
      var reported := settledAt - ms - DB_START_MARGIN_MS;
      if admittedAt >= reported then admittedAt else reported
  }

  // ----- what an interval list means -----

  ghost function Span(a: int, b: int): (s: set<int>)
    ensures forall t :: t in s <==> a <= t < b
    decreases b - a
  {
    if b <= a then {} else Span(a, b - 1) + {b - 1}
  }

  lemma {:induction false} SpanSize(a: int, b: int)
    ensures |Span(a, b)| == if a < b then b - a else 0
    decreases b - a
  {
    if a < b {
      SpanSize(a, b - 1);
    }
  }

  ghost function Instants(v: Interval): set<int> {
    Span(v.start, v.end)
  }

  /** The instants some interval of the list contains. */
  ghost function Points(xs: seq<Interval>): set<int> {
    if xs == [] then {} else Points(xs[..|xs| - 1]) + Instants(xs[|xs| - 1])
  }

  /** Sorted, strictly separated (touching intervals are merged), none empty. */
  ghost predicate Normal(xs: seq<Interval>) {
    && (forall i :: 0 <= i < |xs| ==> xs[i].start < xs[i].end)
    && (forall i, j :: 0 <= i < j < |xs| ==> xs[i].end < xs[j].start)
  }

  lemma PointsOfSnoc(xs: seq<Interval>, v: Interval)
    ensures Points(xs + [v]) == Points(xs) + Instants(v)
  {
    assert (xs + [v])[..|xs|] == xs;
  }

  lemma PointsOfPrefix(xs: seq<Interval>, n: nat)
    requires n < |xs|
    ensures Points(xs[..n + 1]) == Points(xs[..n]) + Instants(xs[n])
  {
    assert xs[..n + 1] == xs[..n] + [xs[n]];
    PointsOfSnoc(xs[..n], xs[n]);
  }

  lemma {:induction false} PointsOfConcat(xs: seq<Interval>, ys: seq<Interval>)
    ensures Points(xs + ys) == Points(xs) + Points(ys)
  {
    if ys == [] {
      assert xs + ys == xs;
    } else {
      var n := |ys| - 1;
      PointsOfConcat(xs, ys[..n]);
      assert xs + ys == (xs + ys[..n]) + [ys[n]];
      PointsOfSnoc(xs + ys[..n], ys[n]);
    }
  }

  lemma PointsOfOne(v: Interval)
    ensures Points([v]) == Instants(v)
  {
    PointsOfSnoc([], v);
    assert [] + [v] == [v];
  }

  /** A point of the list lies in some interval of it, and conversely. */
  lemma {:induction false} PointsAre(xs: seq<Interval>, t: int)
    ensures t in Points(xs) <==> exists i :: 0 <= i < |xs| && xs[i].start <= t < xs[i].end
  {
    if xs != [] {
      var n := |xs| - 1;
      PointsAre(xs[..n], t);
      assert forall i :: 0 <= i < n ==> xs[..n][i] == xs[i];
    }
  }

  lemma NormalInit(xs: seq<Interval>, t: int)
    requires Normal(xs) && |xs| > 0
    ensures Normal(xs[..|xs| - 1])
    ensures t in Points(xs[..|xs| - 1]) ==> t + 1 < xs[|xs| - 1].start
  {
    var n := |xs| - 1;
    PointsAre(xs[..n], t);
    if t in Points(xs[..n]) {
      var i :| 0 <= i < n && xs[..n][i].start <= t < xs[..n][i].end;
      assert xs[i] == xs[..n][i];
    }
  }

  lemma NotEmpty(xs: seq<Interval>)
    requires Normal(xs) && xs != []
    ensures Points(xs) != {}
  {
    assert xs[|xs| - 1].start in Instants(xs[|xs| - 1]);
  }

  /** A point set has at most one sorted, strictly separated list. */
  lemma {:induction false} NormalUnique(xs: seq<Interval>, ys: seq<Interval>)
    requires Normal(xs) && Normal(ys) && Points(xs) == Points(ys)
    ensures xs == ys
  {
    if xs == [] || ys == [] {
      if xs != [] {
        NotEmpty(xs);
      } else if ys != [] {
        NotEmpty(ys);
      }
    } else {
      var a, b := xs[|xs| - 1], ys[|ys| - 1];
      var xs', ys' := xs[..|xs| - 1], ys[..|ys| - 1];
      SameLast(xs, ys);
      assert a == b;
      forall t ensures t in Points(xs') <==> t in Points(ys') {
        NormalInit(xs, t);
        NormalInit(ys, t);
        assert t in Points(xs) <==> t in Points(xs') || t in Instants(a);
        assert t in Points(ys) <==> t in Points(ys') || t in Instants(b);
      }
      NormalInit(xs, 0);
      NormalInit(ys, 0);
      NormalUnique(xs', ys');
      assert xs == xs' + [a] && ys == ys' + [b];
    }
  }

  lemma SameLast(xs: seq<Interval>, ys: seq<Interval>)
    requires Normal(xs) && Normal(ys) && Points(xs) == Points(ys) && |xs| > 0 && |ys| > 0
    ensures xs[|xs| - 1] == ys[|ys| - 1]
  {
    LastReachesFarther(xs, ys);
    LastReachesFarther(ys, xs);
  }

  lemma LastReachesFarther(xs: seq<Interval>, ys: seq<Interval>)
    requires Normal(xs) && Normal(ys) && Points(xs) == Points(ys) && |xs| > 0 && |ys| > 0
    ensures xs[|xs| - 1].end <= ys[|ys| - 1].end
    ensures xs[|xs| - 1].end == ys[|ys| - 1].end ==> ys[|ys| - 1].start <= xs[|xs| - 1].start
  {
    var a, b := xs[|xs| - 1], ys[|ys| - 1];
    assert a.end - 1 in Instants(a) && a.end - 1 in Points(ys);
    NormalInit(ys, a.end - 1);
    assert a.end - 1 in Points(ys[..|ys| - 1]) || a.end - 1 in Instants(b);
    if a.end == b.end && a.start < b.start {
      assert b.start - 1 in Instants(a) && b.start - 1 in Points(ys);
      NormalInit(ys, b.start - 1);
    }
  }

  // ----- mergeIntervals -----

  function WithoutEmpty(xs: seq<Interval>): seq<Interval> {
    if xs == [] then []
    else
      var last, rest := xs[|xs| - 1], WithoutEmpty(xs[..|xs| - 1]);
      if last.end > last.start then rest + [last] else rest
  }

  predicate SortedByStart(xs: seq<Interval>) {
    forall i, j :: 0 <= i < j < |xs| ==> xs[i].start <= xs[j].start
  }

  predicate AllNonEmpty(xs: seq<Interval>) {
    forall i :: 0 <= i < |xs| ==> xs[i].start < xs[i].end
  }

  /** Insert after every interval that starts no later: the sort is stable. */
  function InsertByStart(xs: seq<Interval>, v: Interval): (r: seq<Interval>)
    ensures |r| == |xs| + 1
  {
    if xs == [] then [v]
    else if v.start < xs[|xs| - 1].start then InsertByStart(xs[..|xs| - 1], v) + [xs[|xs| - 1]]
    else xs + [v]
  }

  /** `Array.prototype.sort` by start. */
  function SortByStart(xs: seq<Interval>): seq<Interval> {
    if xs == [] then [] else InsertByStart(SortByStart(xs[..|xs| - 1]), xs[|xs| - 1])
  }

  lemma {:induction false} WithoutEmptyKeepsPoints(xs: seq<Interval>)
    ensures AllNonEmpty(WithoutEmpty(xs)) && Points(WithoutEmpty(xs)) == Points(xs)
  {
    if xs != [] {
      var n := |xs| - 1;
      WithoutEmptyKeepsPoints(xs[..n]);
      PointsOfSnoc(WithoutEmpty(xs[..n]), xs[n]);
    }
  }

  lemma {:induction false} InsertKeepsElements(xs: seq<Interval>, v: Interval)
    ensures multiset(InsertByStart(xs, v)) == multiset(xs) + multiset{v}
  {
    if xs != [] && v.start < xs[|xs| - 1].start {
      InsertKeepsElements(xs[..|xs| - 1], v);
      assert xs == xs[..|xs| - 1] + [xs[|xs| - 1]];
    }
  }

  lemma {:induction false} InsertSorts(xs: seq<Interval>, v: Interval)
    requires SortedByStart(xs)
    ensures SortedByStart(InsertByStart(xs, v))
    ensures forall u :: u in InsertByStart(xs, v) ==> u == v || u in xs
  {
    if xs != [] && v.start < xs[|xs| - 1].start {
      var last, r := xs[|xs| - 1], InsertByStart(xs[..|xs| - 1], v);
      InsertSorts(xs[..|xs| - 1], v);
      forall i | 0 <= i < |r| ensures r[i].start <= last.start {
        assert r[i] in r;
      }
    }
  }

  lemma {:induction false} SortSorts(xs: seq<Interval>)
    ensures SortedByStart(SortByStart(xs))
  {
    if xs != [] {
      SortSorts(xs[..|xs| - 1]);
      InsertSorts(SortByStart(xs[..|xs| - 1]), xs[|xs| - 1]);
    }
  }

  lemma ElementsSnoc(xs: seq<Interval>)
    requires xs != []
    ensures multiset(xs) == multiset(xs[..|xs| - 1]) + multiset{xs[|xs| - 1]}
  {
    assert xs == xs[..|xs| - 1] + [xs[|xs| - 1]];
  }

  lemma {:induction false} SortKeepsElements(xs: seq<Interval>)
    ensures multiset(SortByStart(xs)) == multiset(xs)
  {
    if xs != [] {
      hide InsertByStart;
      SortKeepsElements(xs[..|xs| - 1]);
      InsertKeepsElements(SortByStart(xs[..|xs| - 1]), xs[|xs| - 1]);
      ElementsSnoc(xs);
    }
  }

  lemma SameElementsSamePoints(xs: seq<Interval>, ys: seq<Interval>)
    requires multiset(xs) == multiset(ys)
    ensures Points(xs) == Points(ys)
  {
    forall t ensures t in Points(xs) <==> t in Points(ys) {
      PointsAre(xs, t);
      PointsAre(ys, t);
      if i :| 0 <= i < |xs| && xs[i].start <= t < xs[i].end {
        assert xs[i] in multiset(ys);
      }
      if i :| 0 <= i < |ys| && ys[i].start <= t < ys[i].end {
        assert ys[i] in multiset(xs);
      }
    }
  }

  /** What the merge loop has built when it meets `v`, and what it makes of it. */
  function Absorb(merged: seq<Interval>, v: Interval): seq<Interval> {
    if |merged| > 0 && v.start <= merged[|merged| - 1].end then
      var last := merged[|merged| - 1];
      merged[..|merged| - 1] + [Interval(last.start, if last.end >= v.end then last.end else v.end)]
    else
      merged + [v]
  }

  lemma AbsorbKeepsNormal(merged: seq<Interval>, v: Interval)
    requires Normal(merged) && v.start < v.end
    requires |merged| > 0 ==> merged[|merged| - 1].start <= v.start
    ensures Normal(Absorb(merged, v))
    ensures Absorb(merged, v)[|Absorb(merged, v)| - 1].start <= v.start
  {
  }

  lemma UnionAssociates<T>(a: set<T>, b: set<T>, c: set<T>)
    ensures a + (b + c) == (a + b) + c
  {
  }

  lemma SpansJoin(a: int, b: int, c: int, d: int)
    requires a <= c <= b
    ensures Span(a, if b >= d then b else d) == Span(a, b) + Span(c, d)
  {
  }

  /** The wider of two overlapping intervals, beside any other points. */
  lemma WidenLast(others: set<int>, last: Interval, v: Interval)
    requires last.start <= v.start <= last.end
    ensures others + Span(last.start, if last.end >= v.end then last.end else v.end)
            == others + Instants(last) + Instants(v)
  {
    SpansJoin(last.start, last.end, v.start, v.end);
    UnionAssociates(others, Instants(last), Instants(v));
  }

  lemma AbsorbAddsPoints(merged: seq<Interval>, v: Interval)
    requires |merged| > 0 ==> merged[|merged| - 1].start <= v.start
    ensures Points(Absorb(merged, v)) == Points(merged) + Instants(v)
  {
    if |merged| > 0 && v.start <= merged[|merged| - 1].end {
      var others, last := merged[..|merged| - 1], merged[|merged| - 1];
      PointsOfSnoc(others, Interval(last.start, if last.end >= v.end then last.end else v.end));
      WidenLast(Points(others), last, v);
    } else {
      PointsOfSnoc(merged, v);
    }
  }

  function MergeSorted(sorted: seq<Interval>): seq<Interval> {
    if sorted == [] then []
    else Absorb(MergeSorted(sorted[..|sorted| - 1]), sorted[|sorted| - 1])
  }

  lemma {:induction false} MergeSortedMeaning(sorted: seq<Interval>)
    requires SortedByStart(sorted) && AllNonEmpty(sorted)
    ensures Normal(MergeSorted(sorted)) && Points(MergeSorted(sorted)) == Points(sorted)
    ensures sorted != [] ==>
              |MergeSorted(sorted)| > 0
              && MergeSorted(sorted)[|MergeSorted(sorted)| - 1].start <= sorted[|sorted| - 1].start
  {
    if sorted != [] {
      var n := |sorted| - 1;
      MergeSortedMeaning(sorted[..n]);
      AbsorbKeepsNormal(MergeSorted(sorted[..n]), sorted[n]);
      AbsorbAddsPoints(MergeSorted(sorted[..n]), sorted[n]);
      PointsOfPrefix(sorted, n);
      assert sorted[..n + 1] == sorted;
    }
  }

  function Merged(xs: seq<Interval>): seq<Interval> {
    MergeSorted(SortByStart(WithoutEmpty(xs)))
  }

  lemma MergedMeaning(xs: seq<Interval>)
    ensures Normal(Merged(xs)) && Points(Merged(xs)) == Points(xs)
  {
    var kept := WithoutEmpty(xs);
    var sorted := SortByStart(kept);
    WithoutEmptyKeepsPoints(xs);
    SortSorts(kept);
    SortKeepsElements(kept);
    SameElementsSamePoints(sorted, kept);
    forall i | 0 <= i < |sorted| ensures sorted[i].start < sorted[i].end {
      assert sorted[i] in multiset(kept);
    }
    MergeSortedMeaning(sorted);
  }

  /** The result is the one sorted, strictly separated list with these points. */
  lemma MergedIsTheNormalForm(xs: seq<Interval>, ys: seq<Interval>)
    ensures Normal(ys) && Points(ys) == Points(xs) <==> ys == Merged(xs)
    ensures Normal(xs) <==> Merged(xs) == xs
  {
    MergedMeaning(xs);
    if Normal(ys) && Points(ys) == Points(xs) {
      NormalUnique(ys, Merged(xs));
    }
    if Normal(xs) {
      NormalUnique(xs, Merged(xs));
    }
  }

  method MergeIntervals(intervals: seq<Interval>) returns (merged: seq<Interval>)
    ensures merged == Merged(intervals)
    ensures Normal(merged) && Points(merged) == Points(intervals)
  {
    MergedMeaning(intervals);
    hide SortByStart, WithoutEmpty, Normal, Points;
    var sorted := SortByStart(WithoutEmpty(intervals));
    merged := [];
    for k := 0 to |sorted|
      invariant merged == MergeSorted(sorted[..k])
    {
      var v, last := sorted[k], |merged| - 1;
      assert sorted[..k + 1][..k] == sorted[..k];
      if |merged| > 0 && v.start <= merged[last].end {
        var end := if merged[last].end >= v.end then merged[last].end else v.end;
        merged := merged[last := Interval(merged[last].start, end)];
      } else {
        merged := merged + [v];
      }
    }
    assert sorted[..|sorted|] == sorted;
  }

  // ----- uncoveredLength -----

  function Max(a: int, b: int): int { if a >= b then a else b }

  function Min(a: int, b: int): int { if a <= b then a else b }

  lemma OverlapSize(a: int, b: int, c: int, d: int)
    ensures |Span(a, b) * Span(c, d)| == Max(0, Min(b, d) - Max(a, c))
  {
    SpanSize(Max(a, c), Min(b, d));
    assert Span(a, b) * Span(c, d) == Span(Max(a, c), Min(b, d));
  }

  /** Taking away `b` as well costs its overlap, when `a` was taken away before and is disjoint. */
  lemma TakeAway(s: set<int>, a: set<int>, b: set<int>)
    requires a !! b
    ensures |s - (a + b)| == |s - a| - |s * b|
  {
    assert s - a == (s - (a + b)) + s * b;
    assert (s - (a + b)) !! s * b;
  }

  lemma DisjointSizes(a: set<int>, b: set<int>, c: set<int>)
    requires a !! b
    ensures |(a + b) - c| == |a - c| + |b - c|
  {
    assert (a + b) - c == (a - c) + (b - c);
  }

  /** In a normal list, an interval is disjoint from all those before it. */
  lemma PrefixDisjoint(xs: seq<Interval>, n: nat)
    requires Normal(xs) && n < |xs|
    ensures Points(xs[..n]) !! Instants(xs[n])
  {
    var ys := xs[..n + 1];
    assert ys[..n] == xs[..n] && ys[n] == xs[n];
    forall t | t in Points(xs[..n]) ensures t !in Instants(xs[n]) {
      NormalInit(ys, t);
    }
  }

  lemma NextCovered(v: Interval, covered: seq<Interval>, j: nat)
    requires Normal(covered) && j < |covered|
    ensures |Instants(v) - Points(covered[..j + 1])|
         == |Instants(v) - Points(covered[..j])| - Max(0, Min(v.end, covered[j].end) - Max(v.start, covered[j].start))
  {
    PointsOfPrefix(covered, j);
    PrefixDisjoint(covered, j);
    TakeAway(Instants(v), Points(covered[..j]), Instants(covered[j]));
    OverlapSize(v.start, v.end, covered[j].start, covered[j].end);
  }

  lemma NextMerged(merged: seq<Interval>, i: nat, c: set<int>)
    requires Normal(merged) && i < |merged|
    ensures |Points(merged[..i + 1]) - c| == |Points(merged[..i]) - c| + |Instants(merged[i]) - c|
  {
    PointsOfPrefix(merged, i);
    PrefixDisjoint(merged, i);
    DisjointSizes(Points(merged[..i]), Instants(merged[i]), c);
  }

  lemma FirstCovered(v: Interval, covered: seq<Interval>)
    requires v.start < v.end
    ensures |Instants(v) - Points(covered[..0])| == v.end - v.start
  {
    SpanSize(v.start, v.end);
    assert Instants(v) - Points(covered[..0]) == Instants(v);
  }

  /** What is left of `v` once the loop has gone through `covered`. */
  ghost function LeftOf(v: Interval, covered: seq<Interval>): int {
    if covered == [] then v.end - v.start
    else
      var c := covered[|covered| - 1];
      LeftOf(v, covered[..|covered| - 1]) - Max(0, Min(v.end, c.end) - Max(v.start, c.start))
  }

  ghost function SumLeft(merged: seq<Interval>, covered: seq<Interval>): int {
    if merged == [] then 0
    else SumLeft(merged[..|merged| - 1], covered) + LeftOf(merged[|merged| - 1], covered)
  }

  lemma {:induction false} LeftOfMeaning(v: Interval, covered: seq<Interval>)
    requires v.start < v.end && Normal(covered)
    ensures LeftOf(v, covered) == |Instants(v) - Points(covered)|
  {
    if covered == [] {
      FirstCovered(v, covered);
    } else {
      var n := |covered| - 1;
      NormalInit(covered, 0);
      LeftOfMeaning(v, covered[..n]);
      NextCovered(v, covered, n);
      assert covered[..n + 1] == covered;
    }
  }

  lemma {:induction false} SumLeftMeaning(merged: seq<Interval>, covered: seq<Interval>)
    requires Normal(merged) && Normal(covered)
    ensures SumLeft(merged, covered) == |Points(merged) - Points(covered)|
  {
    if merged != [] {
      var n := |merged| - 1;
      NormalInit(merged, 0);
      SumLeftMeaning(merged[..n], covered);
      LeftOfMeaning(merged[n], covered);
      NextMerged(merged, n, Points(covered));
      assert merged[..n + 1] == merged;
    }
  }

  /** The inner loop: what a merged interval has outside the merged windows. */
  method LengthOutside(v: Interval, covered: seq<Interval>) returns (left: int)
    ensures left == LeftOf(v, covered)
  {
    left := v.end - v.start;
    for j := 0 to |covered|
      invariant left == LeftOf(v, covered[..j])
    {
      assert covered[..j + 1][..j] == covered[..j];
      left := left - Max(0, Min(v.end, covered[j].end) - Max(v.start, covered[j].start));
    }
    assert covered[..|covered|] == covered;
  }

  /** The outer loop, over the merged intervals. */
  method LengthsOutside(merged: seq<Interval>, covered: seq<Interval>) returns (total: int)
    ensures total == SumLeft(merged, covered)
  {
    total := 0;
    for i := 0 to |merged|
      invariant total == SumLeft(merged[..i], covered)
    {
      assert merged[..i + 1][..i] == merged[..i];
      var left := LengthOutside(merged[i], covered);
      total := total + left;
    }
    assert merged[..|merged|] == merged;
  }

  /** The length of the union of `intervals`, counting only time outside `charged`. */
  method UncoveredLength(intervals: seq<Interval>, charged: seq<Interval>) returns (total: int)
    ensures total == |Points(intervals) - Points(charged)|
  {
    var covered := MergeIntervals(charged);
    var merged := MergeIntervals(intervals);
    total := LengthsOutside(merged, covered);
    SumLeftMeaning(merged, covered);
  }

  // ----- chargeWindow -----

  /** Keep the windows that end after `keepAfter`, whole. */
  function EndingAfter(xs: seq<Interval>, keepAfter: int): seq<Interval> {
    if xs == [] then []
    else
      var last, rest := xs[|xs| - 1], EndingAfter(xs[..|xs| - 1], keepAfter);
      if last.end > keepAfter then rest + [last] else rest
  }

  lemma {:induction false} EndingAfterNormal(xs: seq<Interval>, keepAfter: int)
    requires Normal(xs)
    ensures Normal(EndingAfter(xs, keepAfter))
    ensures forall v :: v in EndingAfter(xs, keepAfter) ==> v in xs && v.end > keepAfter
  {
    if xs != [] {
      var n := |xs| - 1;
      NormalInit(xs, 0);
      var kept := EndingAfter(xs[..n], keepAfter);
      EndingAfterNormal(xs[..n], keepAfter);
      forall i | 0 <= i < |kept| ensures kept[i].end < xs[n].start {
        assert kept[i] in xs[..n];
      }
    }
  }

  /** Trimming forgets only instants before `keepAfter`. */
  lemma {:induction false} EndingAfterPoints(xs: seq<Interval>, keepAfter: int)
    ensures Points(EndingAfter(xs, keepAfter)) <= Points(xs)
    ensures forall t :: t in Points(xs) && t >= keepAfter ==> t in Points(EndingAfter(xs, keepAfter))
  {
    if xs != [] {
      var n := |xs| - 1;
      EndingAfterPoints(xs[..n], keepAfter);
      PointsOfSnoc(EndingAfter(xs[..n], keepAfter), xs[n]);
    }
  }

  /** All of the points from `t` to `keepAfter`, if any. */
  ghost predicate ReachesPast(points: set<int>, t: int, keepAfter: int) {
    forall u :: t <= u <= keepAfter ==> u in points
  }

  /** Trimming keeps exactly the instants whose window ends after `keepAfter`: those with no gap from there to it. */
  lemma EndingAfterExact(xs: seq<Interval>, keepAfter: int, t: int)
    requires Normal(xs)
    ensures t in Points(EndingAfter(xs, keepAfter)) <==> t in Points(xs) && ReachesPast(Points(xs), t, keepAfter)
  {
    hide Points, EndingAfter, ReachesPast, Normal;
    PointsAre(xs, t);
    if t in Points(EndingAfter(xs, keepAfter)) {
      var v := Around(EndingAfter(xs, keepAfter), t);
      EndingAfterNormal(xs, keepAfter);
      WindowReaches(xs, v, t, keepAfter);
    }
    if t in Points(xs) && ReachesPast(Points(xs), t, keepAfter) {
      var v := Around(xs, t);
      ReachingWindow(xs, v, t, keepAfter);
      EndingAfterKeeps(xs, keepAfter, v);
      InPoints(EndingAfter(xs, keepAfter), v, t);
    }
  }

  lemma Around(xs: seq<Interval>, t: int) returns (v: Interval)
    requires t in Points(xs)
    ensures v in xs && v.start <= t < v.end
  {
    PointsAre(xs, t);
    var i :| 0 <= i < |xs| && xs[i].start <= t < xs[i].end;
    v := xs[i];
  }

  lemma InPoints(xs: seq<Interval>, v: Interval, t: int)
    requires v in xs && v.start <= t < v.end
    ensures t in Points(xs)
  {
    PointsAre(xs, t);
  }

  lemma WindowReaches(xs: seq<Interval>, v: Interval, t: int, keepAfter: int)
    requires v in xs && v.start <= t < v.end && v.end > keepAfter
    ensures t in Points(xs) && ReachesPast(Points(xs), t, keepAfter)
  {
    InPoints(xs, v, t);
    forall u | t <= u <= keepAfter ensures u in Points(xs) {
      InPoints(xs, v, u);
    }
  }

  lemma ReachingWindow(xs: seq<Interval>, v: Interval, t: int, keepAfter: int)
    requires Normal(xs) && v in xs && v.start <= t < v.end && ReachesPast(Points(xs), t, keepAfter)
    ensures v.end > keepAfter
  {
    if v.end <= keepAfter {
      assert v.end in Points(xs);
      var next := Around(xs, v.end);
    }
  }

  lemma {:induction false} EndingAfterKeeps(xs: seq<Interval>, keepAfter: int, v: Interval)
    requires v in xs && v.end > keepAfter
    ensures v in EndingAfter(xs, keepAfter)
  {
    var n := |xs| - 1;
    if v != xs[n] {
      assert v in xs[..n];
      EndingAfterKeeps(xs[..n], keepAfter, v);
    }
  }

  /** The window of an analysis whose DB work spans [start, end]. */
  function Window(start: int, end: int): Interval {
    Interval(start, end + NEON_IDLE_TAIL_MS)
  }

  function AddCharged(charged: seq<Interval>, window: Interval, keepAfter: int): seq<Interval> {
    EndingAfter(Merged(charged + [window]), keepAfter)
  }

  /** The milliseconds of a window not charged yet. */
  ghost function AddedMs(charged: seq<Interval>, window: Interval): nat {
    |Instants(window) - Points(charged)|
  }

  /** The windows after a charge: in normal form, and holding exactly the instants charged before or now
      from which no gap precedes the horizon. */
  lemma AddChargedExact(charged: seq<Interval>, window: Interval, keepAfter: int, t: int)
    ensures var all := Points(charged) + Instants(window);
            t in Points(AddCharged(charged, window, keepAfter)) <==> t in all && ReachesPast(all, t, keepAfter)
    ensures Normal(AddCharged(charged, window, keepAfter))
    ensures forall v :: v in AddCharged(charged, window, keepAfter) ==> v.end > keepAfter
  {
    PointsOfSnoc(charged, window);
    MergedMeaning(charged + [window]);
    EndingAfterNormal(Merged(charged + [window]), keepAfter);
    EndingAfterExact(Merged(charged + [window]), keepAfter, t);
  }

  lemma AddChargedMeaning(charged: seq<Interval>, window: Interval, keepAfter: int)
    ensures Normal(AddCharged(charged, window, keepAfter))
    ensures Points(AddCharged(charged, window, keepAfter)) <= Points(charged) + Instants(window)
    ensures forall t :: t in Points(charged) + Instants(window) && t >= keepAfter ==>
                          t in Points(AddCharged(charged, window, keepAfter))
  {
    var all := charged + [window];
    PointsOfSnoc(charged, window);
    MergedMeaning(all);
    EndingAfterNormal(Merged(all), keepAfter);
    EndingAfterPoints(Merged(all), keepAfter);
  }

  method ChargeWindow(charged: seq<Interval>, start: int, end: int, keepAfter: int)
    returns (charged': seq<Interval>, addedMs: int)
    ensures addedMs == AddedMs(charged, Window(start, end))
    ensures charged' == AddCharged(charged, Window(start, end), keepAfter)
  {
    var window := Window(start, end);
    addedMs := UncoveredLength([window], charged);
    PointsOfOne(window);
    var merged := MergeIntervals(charged + [window]);
    charged' := EndingAfter(merged, keepAfter);
  }

  lemma ChargeGrows(ever: set<int>, known: set<int>, w: set<int>)
    requires known <= ever
    ensures |w - known| == |ever + w| - |ever| + |w * ever - known|
  {
    assert ever + w == ever + (w - ever);
    assert |ever + w| == |ever| + |w - ever|;
    assert w - known == (w - ever) + (w * ever - known);
    assert |w - known| == |w - ever| + |w * ever - known|;
  }
}
