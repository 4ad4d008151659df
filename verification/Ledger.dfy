/** What the ledger of charges and the table of live leases add up to. */
module Ledger {
  import opened Budget
  import opened GovernorModel
  import Sums

  // ----- totals of the ledger -----

  ghost function BilledMs(ledger: seq<Charge>, who: Group): nat {
    if ledger == [] then 0
    else
      var last := ledger[|ledger| - 1];
      BilledMs(ledger[..|ledger| - 1], who) + if Member(last.lease, who) then last.addedMs else 0
  }

  ghost function BilledEgress(ledger: seq<Charge>, who: Group): int {
    if ledger == [] then 0
    else
      var last := ledger[|ledger| - 1];
      BilledEgress(ledger[..|ledger| - 1], who) + if Member(last.lease, who) then last.lease.egress else 0
  }

  /** By how much settlements after the assumed deadline, and trims ahead of a live lease, can have
      overrun what was reserved for the group. */
  ghost function SlippedMs(ledger: seq<Charge>, who: Group): nat {
    if ledger == [] then 0
    else
      var last := ledger[|ledger| - 1];
      SlippedMs(ledger[..|ledger| - 1], who) + (if Member(last.lease, who) then last.lateMs else 0) + last.lostMs
  }

  /** Every instant any charge was made for. */
  ghost function EverBilled(ledger: seq<Charge>): set<int> {
    if ledger == [] then {}
    else EverBilled(ledger[..|ledger| - 1]) + Instants(ledger[|ledger| - 1].window)
  }

  lemma LedgerSnoc(ledger: seq<Charge>, c: Charge, who: Group)
    ensures BilledMs(ledger + [c], who) == BilledMs(ledger, who) + if Member(c.lease, who) then c.addedMs else 0
    ensures BilledEgress(ledger + [c], who)
            == BilledEgress(ledger, who) + if Member(c.lease, who) then c.lease.egress else 0
    ensures SlippedMs(ledger + [c], who)
            == SlippedMs(ledger, who) + (if Member(c.lease, who) then c.lateMs else 0) + c.lostMs
  {
    assert (ledger + [c])[..|ledger|] == ledger;
  }

  lemma EverSnoc(ledger: seq<Charge>, c: Charge)
    ensures EverBilled(ledger + [c]) == EverBilled(ledger) + Instants(c.window)
  {
    assert (ledger + [c])[..|ledger|] == ledger;
  }

  lemma {:induction false} NothingBilled(ledger: seq<Charge>, who: Group)
    requires forall i :: 0 <= i < |ledger| ==> !Member(ledger[i].lease, who)
    ensures BilledMs(ledger, who) == 0 && BilledEgress(ledger, who) == 0
  {
    if ledger != [] {
      NothingBilled(ledger[..|ledger| - 1], who);
    }
  }

  lemma {:induction false} NoSlips(ledger: seq<Charge>, who: Group)
    requires forall i :: 0 <= i < |ledger| ==> ledger[i].lateMs == 0 && ledger[i].lostMs == 0
    ensures SlippedMs(ledger, who) == 0
  {
    if ledger != [] {
      NoSlips(ledger[..|ledger| - 1], who);
    }
  }

  lemma CuSecondsAdds(a: int, b: int)
    ensures CuSeconds(a + b) == CuSeconds(a) + CuSeconds(b)
  {
  }

  lemma CuSecondsMonotone(a: int, b: int)
    requires a <= b
    ensures CuSeconds(a) <= CuSeconds(b)
  {
  }

  // ----- covers -----

  lemma InCover(leases: map<LeaseId, Lease>, id: LeaseId, who: Group, t: int)
    requires id in leases && Member(leases[id], who) && t in Provisional(leases[id])
    ensures t in Cover(leases, who)
  {
  }

  lemma CoverInsert(leases: map<LeaseId, Lease>, id: LeaseId, l: Lease, who: Group)
    requires id !in leases
    ensures Cover(leases[id := l], who) == Cover(leases, who) + if Member(l, who) then Provisional(l) else {}
  {
    var wider := leases[id := l];
    var mine := if Member(l, who) then Provisional(l) else {};
    forall t ensures t in Cover(wider, who) <==> t in Cover(leases, who) || t in mine {
      if t in Cover(wider, who) {
        var id' :| id' in wider && Member(wider[id'], who) && t in Provisional(wider[id']);
        if id' != id {
          InCover(leases, id', who, t);
        }
      }
      if t in Cover(leases, who) {
        var id' :| id' in leases && Member(leases[id'], who) && t in Provisional(leases[id']);
        assert wider[id'] == leases[id'];
        InCover(wider, id', who, t);
      }
      if t in mine {
        InCover(wider, id, who, t);
      }
    }
  }

  lemma CoverRemove(leases: map<LeaseId, Lease>, id: LeaseId, who: Group)
    requires id in leases
    ensures Cover(leases, who)
            == Cover(leases - {id}, who) + if Member(leases[id], who) then Provisional(leases[id]) else {}
  {
    CoverInsert(leases - {id}, id, leases[id], who);
    assert (leases - {id})[id := leases[id]] == leases;
  }

  lemma CoverOfGroup(leases: map<LeaseId, Lease>, who: Group)
    ensures Cover(leases, who) <= Cover(leases, Everyone)
  {
    forall t | t in Cover(leases, who) ensures t in Cover(leases, Everyone) {
      var id :| id in leases && Member(leases[id], who) && t in Provisional(leases[id]);
      InCover(leases, id, Everyone, t);
    }
  }

  lemma CoverAfter(leases: map<LeaseId, Lease>, horizon: int)
    requires forall id :: id in leases ==> leases[id].admittedAt >= horizon
    ensures forall t :: t in Cover(leases, Everyone) ==> t >= horizon
  {
  }

  // ----- egress held -----

  function EgressColumn(leases: map<LeaseId, Lease>, who: Group): map<LeaseId, int> {
    map id | id in leases && Member(leases[id], who) :: leases[id].egress
  }

  lemma HeldInsert(leases: map<LeaseId, Lease>, id: LeaseId, l: Lease, who: Group)
    requires id !in leases
    ensures EgressHeld(leases[id := l], who) == EgressHeld(leases, who) + if Member(l, who) then l.egress else 0
  {
    if Member(l, who) {
      assert EgressColumn(leases[id := l], who) == EgressColumn(leases, who)[id := l.egress];
      Sums.SumInsert(EgressColumn(leases, who), id, l.egress);
    } else {
      assert EgressColumn(leases[id := l], who) == EgressColumn(leases, who);
    }
  }

  lemma HeldRemove(leases: map<LeaseId, Lease>, id: LeaseId, who: Group)
    requires id in leases
    ensures EgressHeld(leases, who)
            == EgressHeld(leases - {id}, who) + if Member(leases[id], who) then leases[id].egress else 0
  {
    HeldInsert(leases - {id}, id, leases[id], who);
    assert (leases - {id})[id := leases[id]] == leases;
  }

  // ----- the potential: what is billed plus what is still reserved -----

  ghost function ReservedMs(leases: map<LeaseId, Lease>, who: Group, charged: seq<Interval>): nat {
    |Cover(leases, who) - Points(charged)|
  }

  lemma SubsetSize<T>(a: set<T>, b: set<T>)
    requires a <= b
    ensures |a| <= |b|
  {
    assert b == a + (b - a);
    assert |b| == |a| + |b - a|;
  }

  lemma UnionSize<T>(a: set<T>, b: set<T>)
    ensures |a + b| <= |a| + |b|
  {
    assert a + b == a + (b - a);
    assert |a + b| == |a| + |b - a|;
    SubsetSize(b - a, b);
  }

  /** What a group reserves once the windows are `known'` instead of `known`: `w` was charged, and some forgotten. */
  lemma ReserveMoves(cover: set<int>, known: set<int>, w: set<int>, known': set<int>)
    requires known' <= known + w
    ensures |cover - known'| == |cover - known| - |cover * w - known| + |cover * (known + w) - known'|
  {
    var met, rest, forgotten := cover * w - known, cover - known - w, cover * (known + w) - known';
    assert cover - known == rest + met && rest !! met;
    assert cover - known' == rest + forgotten && rest !! forgotten;
    assert |rest + met| == |rest| + |met| && |rest + forgotten| == |rest| + |forgotten|;
  }

  /** Charging `w` to the lease that reserved `mine` beside the `left` others. */
  lemma ChargeMoves(left: set<int>, mine: set<int>, known: set<int>, w: set<int>, known': set<int>)
    requires known' <= known + w
    ensures |w - known| + |left - known'|
         == |left + mine - known| + |left * (known + w) - known'|
             + |w - (left + mine) - known| - |mine - left - known - w|
  {
    ReserveMoves(left, known, w, known');
    ThreeParts(w - known, left * w - known, w * mine - left - known, w - (left + mine) - known);
    ThreeParts(left + mine - known, left - known, w * mine - left - known, mine - left - known - w);
  }

  lemma ThreeParts<T>(all: set<T>, a: set<T>, b: set<T>, c: set<T>)
    requires all == a + b + c && a !! b && a + b !! c
    ensures |all| == |a| + |b| + |c|
  {
    assert |a + b + c| == |a + b| + |c| && |a + b| == |a| + |b|;
  }

  lemma LostOfGroup(cover: set<int>, all: set<int>, known: set<int>, known': set<int>)
    requires cover <= all
    ensures |cover * known - known'| <= |all * known - known'|
  {
    SubsetSize(cover * known - known', all * known - known');
  }

  /** By how much a charge to lease `id` moves what is billed to a group plus what it reserves, from what is known
      before it: the charge's part outside everything the group had reserved, and the windows it has trimmed that the
      group's other leases still cover, less what the lease alone had reserved and does not use (or, when the lease is
      of another group, less what this group had reserved of the window). */
  ghost function OverrunMs(leases: map<LeaseId, Lease>, id: LeaseId, who: Group, charged: seq<Interval>,
                           window: Interval, charged': seq<Interval>): int
    requires id in leases
  {
    var cover, left := Cover(leases, who), Cover(leases - {id}, who);
    var known, w := Points(charged), Instants(window);
    |left * (known + w) - Points(charged')|
    + if Member(leases[id], who) then |w - cover - known| - |Provisional(leases[id]) - left - known - w|
      else -|left * w - known|
  }

  /** Ending a lease with a charge moves time from reserved to billed: their sum changes by exactly the overrun. */
  lemma ChargeMovesTime(leases: map<LeaseId, Lease>, id: LeaseId, who: Group, charged: seq<Interval>, window: Interval,
                        charged': seq<Interval>)
    requires id in leases && Points(charged') <= Points(charged) + Instants(window)
    ensures (if Member(leases[id], who) then AddedMs(charged, window) else 0) + ReservedMs(leases - {id}, who, charged')
            == ReservedMs(leases, who, charged) + OverrunMs(leases, id, who, charged, window, charged')
  {
    hide Cover, Points, Instants, Provisional, Member;
    CoverRemove(leases, id, who);
    var left := Cover(leases - {id}, who);
    if Member(leases[id], who) {
      ChargeMoves(left, Provisional(leases[id]), Points(charged), Instants(window), Points(charged'));
    } else {
      assert left + {} == left;
      ReserveMoves(left, Points(charged), Instants(window), Points(charged'));
    }
  }

  /** An overrun is at most what slipped. */
  lemma OverrunIsSlip(leases: map<LeaseId, Lease>, id: LeaseId, who: Group, charged: seq<Interval>, window: Interval,
                      charged': seq<Interval>)
    requires id in leases
    ensures OverrunMs(leases, id, who, charged, window, charged')
            <= (if Member(leases[id], who) then LateMs(charged, leases[id], window) else 0)
               + LostMs(charged, window, charged', Cover(leases - {id}, Everyone))
  {
    hide Cover, Points, Instants, Provisional, Member;
    var left := leases - {id};
    CoverOfGroup(left, who);
    LostOfGroup(Cover(left, who), Cover(left, Everyone), Points(charged) + Instants(window), Points(charged'));
    CoverRemove(leases, id, who);
    if Member(leases[id], who) {
      SubsetSize(Instants(window) - Cover(leases, who) - Points(charged),
                 Instants(window) - Provisional(leases[id]) - Points(charged));
    }
  }
}
