/** Ceilings: what is billed plus what live leases reserve stays within them. */
module Reserves {
  import opened Budget
  import opened GovernorModel
  import opened Ledger

  /** Whether a poll was ever applied: until then there is no ground truth. */
  predicate Measured(h: History) { h.applied != [] }

  /** The largest daily ceiling there can have been, in CU-seconds. */
  function CapS(measured: bool): real {
    (if measured then DAILY_CU_HOURS_GROUND_TRUTH else DAILY_CU_HOURS_CONSERVATIVE) * 3600.0
  }

  function LimitS(measured: bool, who: Group): real {
    if who.OnNetwork? then PREFIX_DAILY_CU_SHARE * CapS(measured) else CapS(measured)
  }

  ghost predicate WithinCeiling(measured: bool, leases: map<LeaseId, Lease>, ledger: seq<Charge>,
                                charged: seq<Interval>, who: Group) {
    CuSeconds(BilledMs(ledger, who) + ReservedMs(leases, who, charged))
        <= LimitS(measured, who) + CuSeconds(SlippedMs(ledger, who))
  }

  /** Every day and every network: settled compute plus what its live leases would still add is at
      most its ceiling, plus what slipped. */
  ghost predicate CeilingsHold(measured: bool, leases: map<LeaseId, Lease>, ledger: seq<Charge>,
                               charged: seq<Interval>) {
    forall who: Group :: !who.Everyone? ==> WithinCeiling(measured, leases, ledger, charged, who)
  }

  lemma CeilingIsCapped(g: Gov, st: StateRow, now: int)
    requires st.neon.Some? ==> Measured(g.hist)
    ensures DailyCeilingS(st, now, g.neonKey) <= CapS(Measured(g.hist))
  {
  }

  /** What held before the first poll was applied holds after. */
  lemma PollKeepsCeilings(measured: bool, measured': bool, leases: map<LeaseId, Lease>, ledger: seq<Charge>,
                          charged: seq<Interval>)
    requires CeilingsHold(measured, leases, ledger, charged) && EgressHolds(measured, leases, ledger)
    requires measured ==> measured'
    ensures CeilingsHold(measured', leases, ledger, charged) && EgressHolds(measured', leases, ledger)
  {
    forall who: Group | !who.Everyone? ensures WithinCeiling(measured', leases, ledger, charged, who) {
      assert WithinCeiling(measured, leases, ledger, charged, who);
    }
  }

  lemma BillKeepsCeilings(measured: bool, leases: map<LeaseId, Lease>, ledger: seq<Charge>, charged: seq<Interval>,
                          c: Charge, charged': seq<Interval>)
    requires CeilingsHold(measured, leases, ledger, charged)
    requires c.id in leases && c.lease == leases[c.id]
    requires c.addedMs == AddedMs(charged, c.window) && c.lateMs == LateMs(charged, c.lease, c.window)
    requires c.lostMs == LostMs(charged, c.window, charged', Cover(leases - {c.id}, Everyone))
    requires Points(charged') <= Points(charged) + Instants(c.window)
    ensures CeilingsHold(measured, leases - {c.id}, ledger + [c], charged')
  {
    forall who: Group | !who.Everyone? ensures WithinCeiling(measured, leases - {c.id}, ledger + [c], charged', who) {
      assert WithinCeiling(measured, leases, ledger, charged, who);
      LedgerSnoc(ledger, c, who);
      ChargeMovesTime(leases, c.id, who, charged, c.window, charged');
      OverrunIsSlip(leases, c.id, who, charged, c.window, charged');
      var slipped := (if Member(c.lease, who) then c.lateMs else 0) + c.lostMs;
      CuSecondsMonotone(BilledMs(ledger + [c], who) + ReservedMs(leases - {c.id}, who, charged'),
                        BilledMs(ledger, who) + ReservedMs(leases, who, charged) + slipped);
      CuSecondsAdds(BilledMs(ledger, who) + ReservedMs(leases, who, charged), slipped);
      CuSecondsAdds(SlippedMs(ledger, who), slipped);
    }
  }

  lemma CloseKeepsCeilings(measured: bool, leases: map<LeaseId, Lease>, id: LeaseId, ledger: seq<Charge>,
                           charged: seq<Interval>)
    requires CeilingsHold(measured, leases, ledger, charged) && id in leases
    ensures CeilingsHold(measured, leases - {id}, ledger, charged)
  {
    forall who: Group | !who.Everyone? ensures WithinCeiling(measured, leases - {id}, ledger, charged, who) {
      assert WithinCeiling(measured, leases, ledger, charged, who);
      CoverRemove(leases, id, who);
      SubsetSize(Cover(leases - {id}, who) - Points(charged), Cover(leases, who) - Points(charged));
      CuSecondsMonotone(BilledMs(ledger, who) + ReservedMs(leases - {id}, who, charged),
                        BilledMs(ledger, who) + ReservedMs(leases, who, charged));
    }
  }

  /** Trimming windows no live lease can reach frees nothing. */
  lemma TrimKeepsReserve(leases: map<LeaseId, Lease>, who: Group, charged: seq<Interval>, keepAfter: int)
    requires forall id :: id in leases ==> leases[id].admittedAt >= keepAfter
    ensures ReservedMs(leases, who, EndingAfter(charged, keepAfter)) == ReservedMs(leases, who, charged)
  {
    CoverOfGroup(leases, who);
    CoverAfter(leases, keepAfter);
    EndingAfterPoints(charged, keepAfter);
    assert Cover(leases, who) - Points(EndingAfter(charged, keepAfter)) == Cover(leases, who) - Points(charged);
  }

  lemma TrimKeepsCeilings(measured: bool, leases: map<LeaseId, Lease>, ledger: seq<Charge>, charged: seq<Interval>,
                          keepAfter: int)
    requires CeilingsHold(measured, leases, ledger, charged)
    requires forall id :: id in leases ==> leases[id].admittedAt >= keepAfter
    ensures CeilingsHold(measured, leases, ledger, EndingAfter(charged, keepAfter))
  {
    forall who: Group | !who.Everyone?
           ensures WithinCeiling(measured, leases, ledger, EndingAfter(charged, keepAfter), who) {
      assert WithinCeiling(measured, leases, ledger, charged, who);
      TrimKeepsReserve(leases, who, charged, keepAfter);
    }
  }

  /** A new lease that passed the check of every group it joins. */
  lemma IssueKeepsCeilings(measured: bool, leases: map<LeaseId, Lease>, id: LeaseId, l: Lease, ledger: seq<Charge>,
                           charged: seq<Interval>)
    requires CeilingsHold(measured, leases, ledger, charged) && id !in leases
    requires forall who: Group :: !who.Everyone? && Member(l, who) ==>
               CuSeconds(BilledMs(ledger, who)) + CuSeconds(|Cover(leases, who) + Provisional(l) - Points(charged)|)
                   <= LimitS(measured, who)
    ensures CeilingsHold(measured, leases[id := l], ledger, charged)
  {
    forall who: Group | !who.Everyone? ensures WithinCeiling(measured, leases[id := l], ledger, charged, who) {
      assert WithinCeiling(measured, leases, ledger, charged, who);
      CoverInsert(leases, id, l, who);
      if Member(l, who) {
        CuSecondsAdds(BilledMs(ledger, who), ReservedMs(leases[id := l], who, charged));
      } else {
        assert Cover(leases[id := l], who) == Cover(leases, who);
      }
    }
  }

  // ----- what slips -----

  /** A window within its lease's provisional interval is not late. */
  lemma NotLate(charged: seq<Interval>, l: Lease, window: Interval)
    requires l.admittedAt <= window.start
    requires window.end <= l.admittedAt + PROVISIONAL_BUSY_MS + NEON_IDLE_TAIL_MS
    ensures LateMs(charged, l, window) == 0
  {
    assert Instants(window) - Provisional(l) - Points(charged) == {};
  }

  /** Trimming at a horizon no live lease precedes loses nothing that is needed. */
  lemma NotLost(charged: seq<Interval>, window: Interval, keepAfter: int, leases: map<LeaseId, Lease>)
    requires forall id :: id in leases ==> leases[id].admittedAt >= keepAfter
    ensures LostMs(charged, window, AddCharged(charged, window, keepAfter), Cover(leases, Everyone)) == 0
  {
    CoverAfter(leases, keepAfter);
    AddChargedMeaning(charged, window, keepAfter);
    assert Cover(leases, Everyone) * (Points(charged) + Instants(window))
           - Points(AddCharged(charged, window, keepAfter)) == {};
  }

  // ----- egress before any ground truth -----

  ghost function EgressDue(leases: map<LeaseId, Lease>, ledger: seq<Charge>, d: Day): int {
    BilledEgress(ledger, OnDay(d)) + EgressHeld(leases, OnDay(d))
  }

  ghost predicate EgressHolds(measured: bool, leases: map<LeaseId, Lease>, ledger: seq<Charge>) {
    !measured ==> forall d: Day :: EgressDue(leases, ledger, d) as real <= EGRESS_DAILY_CONSERVATIVE_BYTES
  }

  lemma BillKeepsEgress(measured: bool, leases: map<LeaseId, Lease>, ledger: seq<Charge>, c: Charge)
    requires EgressHolds(measured, leases, ledger)
    requires c.id in leases && c.lease == leases[c.id]
    ensures EgressHolds(measured, leases - {c.id}, ledger + [c])
  {
    forall d: Day ensures EgressDue(leases - {c.id}, ledger + [c], d) == EgressDue(leases, ledger, d) {
      LedgerSnoc(ledger, c, OnDay(d));
      HeldRemove(leases, c.id, OnDay(d));
    }
  }

  lemma CloseKeepsEgress(measured: bool, leases: map<LeaseId, Lease>, id: LeaseId, ledger: seq<Charge>)
    requires EgressHolds(measured, leases, ledger)
    requires id in leases && leases[id].egress >= 0
    ensures EgressHolds(measured, leases - {id}, ledger)
  {
    forall d: Day ensures EgressDue(leases - {id}, ledger, d) <= EgressDue(leases, ledger, d) {
      HeldRemove(leases, id, OnDay(d));
    }
  }

  lemma IssueKeepsEgress(measured: bool, leases: map<LeaseId, Lease>, id: LeaseId, l: Lease, ledger: seq<Charge>)
    requires EgressHolds(measured, leases, ledger) && id !in leases
    requires !measured ==> (EgressDue(leases, ledger, l.day) + l.egress) as real <= EGRESS_DAILY_CONSERVATIVE_BYTES
    ensures EgressHolds(measured, leases[id := l], ledger)
  {
    if !measured {
      var wider := leases[id := l];
      forall d: Day ensures EgressDue(wider, ledger, d) as real <= EGRESS_DAILY_CONSERVATIVE_BYTES {
        HeldInsert(leases, id, l, OnDay(d));
        assert EgressDue(leases, ledger, d) as real <= EGRESS_DAILY_CONSERVATIVE_BYTES;
      }
    }
  }

  // ----- the union that is charged -----

  /** What charge `n` counts beyond the instants that no earlier charge was made for: those it counts again. */
  ghost function AgainMs(ledger: seq<Charge>, n: nat): int
    requires n < |ledger|
  {
    ledger[n].addedMs - |Instants(ledger[n].window) - EverBilled(ledger[..n])|
  }

  ghost function AllAgainMs(ledger: seq<Charge>): int {
    if ledger == [] then 0 else AllAgainMs(ledger[..|ledger| - 1]) + AgainMs(ledger, |ledger| - 1)
  }

  /** What is remembered was charged, and no charge counts less than its new instants. */
  ghost predicate ChargesCover(ledger: seq<Charge>, charged: seq<Interval>) {
    && Points(charged) <= EverBilled(ledger)
    && forall n :: 0 <= n < |ledger| ==> AgainMs(ledger, n) >= 0
  }

  /** The charges add up to the union of their windows and what they count again. */
  lemma {:induction false} BilledIsUnionAndAgain(ledger: seq<Charge>)
    ensures BilledMs(ledger, Everyone) == |EverBilled(ledger)| + AllAgainMs(ledger)
  {
    if ledger != [] {
      var n := |ledger| - 1;
      BilledIsUnionAndAgain(ledger[..n]);
      ChargeGrows(EverBilled(ledger[..n]), EverBilled(ledger[..n]), Instants(ledger[n].window));
    }
  }

  lemma {:induction false} AgainSigns(ledger: seq<Charge>)
    requires forall n :: 0 <= n < |ledger| ==> AgainMs(ledger, n) >= 0
    ensures AllAgainMs(ledger) >= 0
    ensures AllAgainMs(ledger) == 0 <==> forall n :: 0 <= n < |ledger| ==> AgainMs(ledger, n) == 0
  {
    hide AgainMs;
    if ledger != [] {
      var rest, last := ledger[..|ledger| - 1], |ledger| - 1;
      forall n | 0 <= n < |rest| ensures AgainMs(rest, n) == AgainMs(ledger, n) {
        AgainOfPrefix(ledger, n);
      }
      AgainSigns(rest);
      if AllAgainMs(ledger) == 0 {
        assert AgainMs(ledger, last) == 0 && forall n :: 0 <= n < |rest| ==> AgainMs(rest, n) == 0;
      }
    }
  }

  lemma AgainOfPrefix(ledger: seq<Charge>, n: nat)
    requires n < |ledger| - 1
    ensures AgainMs(ledger[..|ledger| - 1], n) == AgainMs(ledger, n)
  {
    assert ledger[..|ledger| - 1][..n] == ledger[..n];
  }

  lemma BillKeepsCover(ledger: seq<Charge>, charged: seq<Interval>, c: Charge, keepAfter: int)
    requires ChargesCover(ledger, charged) && c.addedMs == AddedMs(charged, c.window)
    ensures ChargesCover(ledger + [c], AddCharged(charged, c.window, keepAfter))
  {
    EverSnoc(ledger, c);
    AddChargedMeaning(charged, c.window, keepAfter);
    var longer := ledger + [c];
    forall n | 0 <= n < |longer| ensures AgainMs(longer, n) >= 0 {
      if n < |ledger| {
        assert longer[..n] == ledger[..n] && AgainMs(ledger, n) >= 0;
      } else {
        assert longer[..n] == ledger;
        SubsetSize(Instants(c.window) - EverBilled(ledger), Instants(c.window) - Points(charged));
      }
    }
  }

  lemma TrimKeepsCover(ledger: seq<Charge>, charged: seq<Interval>, keepAfter: int)
    requires ChargesCover(ledger, charged)
    ensures ChargesCover(ledger, EndingAfter(charged, keepAfter))
  {
    EndingAfterPoints(charged, keepAfter);
  }

  /** Nothing forgotten can be reached by a live lease or a later one, and so nothing was charged twice. */
  ghost predicate ChargedOnce(leases: map<LeaseId, Lease>, ledger: seq<Charge>, charged: seq<Interval>, clock: int) {
    && BilledMs(ledger, Everyone) == |EverBilled(ledger)|
    && (forall t :: t in EverBilled(ledger) && t !in Points(charged) ==>
          t < clock && forall id :: id in leases ==> t < leases[id].admittedAt)
  }

  lemma BillKeepsChargedOnce(leases: map<LeaseId, Lease>, ledger: seq<Charge>, charged: seq<Interval>, clock: int,
                             c: Charge, keepAfter: int)
    requires ChargedOnce(leases, ledger, charged, clock) && ChargesCover(ledger, charged)
    requires c.id in leases && c.lease == leases[c.id] && c.addedMs == AddedMs(charged, c.window)
    requires c.lease.admittedAt <= c.window.start
    requires keepAfter <= clock && forall id :: id in leases && id != c.id ==> keepAfter <= leases[id].admittedAt
    ensures ChargedOnce(leases - {c.id}, ledger + [c], AddCharged(charged, c.window, keepAfter), clock)
  {
    var ever, w := EverBilled(ledger), Instants(c.window);
    EverSnoc(ledger, c);
    LedgerSnoc(ledger, c, Everyone);
    AddChargedMeaning(charged, c.window, keepAfter);
    assert w * ever - Points(charged) == {};
    ChargeGrows(ever, Points(charged), w);
  }

  lemma TrimKeepsChargedOnce(leases: map<LeaseId, Lease>, ledger: seq<Charge>, charged: seq<Interval>, clock: int,
                             keepAfter: int)
    requires ChargedOnce(leases, ledger, charged, clock) && keepAfter <= clock
    requires forall id :: id in leases ==> keepAfter <= leases[id].admittedAt
    ensures ChargedOnce(leases, ledger, EndingAfter(charged, keepAfter), clock)
  {
    EndingAfterPoints(charged, keepAfter);
    forall t | t in EverBilled(ledger) && t !in Points(EndingAfter(charged, keepAfter))
      ensures t < clock && forall id :: id in leases ==> t < leases[id].admittedAt
    {
      if t in Points(charged) {
        assert t < keepAfter;
      }
    }
  }
}
