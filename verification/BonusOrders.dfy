/** One order, entry by entry: whom the pipeline pays, how much and for what, on every state
    the organisation service can reach. */
module BonusOrders {
  import opened Wrappers
  import opened OrganizationStore
  import opened OrganizationLaws
  import opened Organization
  import opened Decimals
  import opened BonusDistribution
  import opened BonusLaws

  /** The recommend percentage of level k, as documented. */
  function RecommendRate(k: nat): real {
    if k == 1 then 0.30 else if k <= 3 then 0.05 else if k == 4 then 0.03 else if k == 5 then 0.02 else 0.01
  }

  function One(due: bool): nat { if due then 1 else 0 }

  /** Entry b pays the k-th ancestor of node d its percentage of the order's pv. */
  ghost predicate LevelPaid(b: Bonus, s: Store, d: NodeId, kind: Kind, k: nat, percentage: real, event: Event, id: nat) {
    && b.id == id && b.kind == kind && b.level == k
    && b.orderId == event.orderId && b.source == event.userId && b.pv == event.pv
    && b.ancestor.Some? && b.ancestor == Ancestor(s.nodes, d, k)
    && b.ancestor.value in s.nodes && b.userId == s.nodes[b.ancestor.value].userId
    && Rounded4(event.pv * percentage, b.amount)
  }

  /** Entry b pays a user a share of the order's total. */
  ghost predicate DirectPaid(b: Bonus, kind: Kind, userId: UserId, rate: real, event: Event, id: nat) {
    && b.id == id && b.kind == kind && b.level == 0 && b.userId == userId
    && b.orderId == event.orderId && b.source == event.userId && b.pv == event.pv && b.ancestor == None
    && Cut8(event.total * rate, b.amount) && b.amount > 0.0
  }

  /** The share is worth at least one unit of the eighth decimal. */
  predicate Worth(total: real, rate: real) { rate > 0.0 && total * rate >= 0.00000001 }

  predicate Named(user: Option<string>) { user.Some? && user.value != "" }

  /** The level entries of one tree. */
  ghost predicate TreePaid(list: seq<Bonus>, s: Store, d: NodeId, kind: Kind, levels: nat, event: Event, id: nat)
    requires d in s.nodes
  {
    && |list| == Min(s.nodes[d].depth, levels)
    && forall i {:trigger list[i]} :: 0 <= i < |list| ==>
         LevelPaid(list[i], s, d, kind, i + 1, if kind == Recommend then RecommendRate(i + 1) else 0.01, event, id + i)
  }

  /** The entries that follow the levels: the buyer's share, then the center's, then the referrer's. */
  ghost predicate SharesPaid(list: seq<Bonus>, rates: Rates, event: Event, id: nat) {
    var share := Worth(event.total, rates.share);
    var center := Named(event.center) && Worth(event.total, rates.center);
    var referral := Named(event.referrer) && Worth(event.total, rates.referral);
    && |list| == One(share) + One(center) + One(referral)
    && (share ==> DirectPaid(list[0], Share, event.userId, rates.share, event, id))
    && (center ==> DirectPaid(list[One(share)], Center, event.center.value, rates.center, event, id + One(share)))
    && (referral ==>
          DirectPaid(list[One(share) + One(center)], CenterReferral, event.referrer.value, rates.referral, event, id + One(share) + One(center)))
  }

  /** What one order records: nothing for a buyer outside the unilevel tree; the recommend
      entries, and then a ValueError, for one outside the binary tree; and otherwise the
      recommend entries, the sponsor entries and the shares, and nothing else. */
  ghost predicate OrderPaid(s: Store, rates: Rates, event: Event, id: nat, batch: Batch) {
    if (Unilevel, event.userId) !in s.byUser then batch == Aborted([])
    else
      var u := s.byUser[(Unilevel, event.userId)];
      && u in s.nodes
      && if (Binary, event.userId) !in s.byUser then
           batch.Aborted? && TreePaid(batch.records, s, u, Recommend, 10, event, id)
         else
           var b := s.byUser[(Binary, event.userId)];
           && b in s.nodes && batch.Complete?
           && var n := Min(s.nodes[u].depth, 10);
           && var m := Min(s.nodes[b].depth, 20);
           && |batch.records| >= n + m
           && TreePaid(batch.records[..n], s, u, Recommend, 10, event, id)
           && TreePaid(batch.records[n..n + m], s, b, Sponsor, 20, event, id + n)
           && SharesPaid(batch.records[n + m..], rates, event, id + n + m)
  }

  lemma Tables(i: nat)
    ensures i < 10 ==> RECOMMEND[i] == RecommendRate(i + 1)
    ensures i < 20 ==> SPONSOR[i] == 0.01
    ensures |RECOMMEND| == 10 && |SPONSOR| == 20
    ensures DEFAULT_RATES == Rates(0.05, 0.08, 0.02)
  {
    if i < 10 {
      assert RECOMMEND[i] == RecommendRate(i + 1) by {
        if i == 0 {} else if i == 1 {} else if i == 2 {} else if i == 3 {} else if i == 4 {}
      }
    }
  }

  lemma TreeExact(s: Store, d: NodeId, kind: Kind, percentages: seq<real>, event: Event, id: nat)
    requires Inv(s) && d in s.nodes
    requires (kind == Recommend && percentages == RECOMMEND) || (kind == Sponsor && percentages == SPONSOR)
    ensures TreePaid(Distribute(CollectAncestors(s.nodes, s.nodes[d], |percentages|), kind, percentages, event, id),
                     s, d, kind, |percentages|, event, id)
  {
    var upline := CollectAncestors(s.nodes, s.nodes[d], |percentages|);
    var list := Distribute(upline, kind, percentages, event, id);
    DefaultTables();
    NodePaid(s, d, kind, percentages, event, id);
    LevelsSound(kind, percentages, upline, event, id, |upline|);
    forall i | 0 <= i < |list|
      ensures LevelPaid(list[i], s, d, kind, i + 1, if kind == Recommend then RecommendRate(i + 1) else 0.01, event, id + i)
    {
      Tables(i);
      OneLevel(list[i], s, d, kind, percentages, upline, event, id, i);
    }
  }

  lemma LevelRounded(pv: real, percentage: real)
    ensures Rounded4(pv * percentage, LevelAmount(pv, percentage))
  {
    Quantize4Iff(pv * percentage, LevelAmount(pv, percentage));
  }

  lemma DirectCut(total: real, rate: real)
    ensures Cut8(total * rate, DirectAmount(total, rate))
    ensures DirectAmount(total, rate) > 0.0 <==> total * rate >= 0.00000001
  {
    Truncate8Positive(total * rate);
    Truncate8Iff(total * rate, DirectAmount(total, rate));
  }

  lemma OneLevel(b: Bonus, s: Store, d: NodeId, kind: Kind, percentages: seq<real>, upline: seq<Node>, event: Event, id: nat, i: nat)
    requires i < |percentages| && PaidTo(b, s, d, event.pv, percentages, id, i) && PaysLevel(b, kind, percentages, upline, event)
    ensures LevelPaid(b, s, d, kind, i + 1, percentages[i], event, id + i)
  {
    LevelRounded(event.pv, percentages[i]);
  }

  /** One direct bonus, with the id it gets. */
  lemma DirectExact(kind: Kind, userId: UserId, rate: real, event: Event, id: nat)
    ensures var list := DirectBonus(kind, userId, rate, event, id);
      if Worth(event.total, rate) then |list| == 1 && DirectPaid(list[0], kind, userId, rate, event, id) else list == []
  {
    DirectCut(event.total, rate);
  }

  /** The entry of a user the order may name. */
  lemma NamedExact(kind: Kind, user: Option<string>, rate: real, event: Event, id: nat)
    ensures var list := CenterBonus(kind, user, rate, event, id);
      if Named(user) && Worth(event.total, rate) then |list| == 1 && DirectPaid(list[0], kind, user.value, rate, event, id)
      else list == []
  {
    if Named(user) {
      DirectExact(kind, user.value, rate, event, id);
    }
  }

  lemma ThreeShares(share: seq<Bonus>, center: seq<Bonus>, referral: seq<Bonus>, rates: Rates, event: Event, id: nat)
    requires if Worth(event.total, rates.share) then |share| == 1 && DirectPaid(share[0], Share, event.userId, rates.share, event, id) else share == []
    requires if Named(event.center) && Worth(event.total, rates.center)
             then |center| == 1 && DirectPaid(center[0], Center, event.center.value, rates.center, event, id + |share|) else center == []
    requires if Named(event.referrer) && Worth(event.total, rates.referral)
             then |referral| == 1 && DirectPaid(referral[0], CenterReferral, event.referrer.value, rates.referral, event, id + |share| + |center|)
             else referral == []
    ensures SharesPaid(share + center + referral, rates, event, id)
  {
  }

  lemma SharesExact(rates: Rates, event: Event, id: nat) returns (list: seq<Bonus>)
    ensures list == DirectBonuses(rates, event, id) && SharesPaid(list, rates, event, id)
  {
    DirectExact(Share, event.userId, rates.share, event, id);
    var share := DirectBonus(Share, event.userId, rates.share, event, id);
    NamedExact(Center, event.center, rates.center, event, id + |share|);
    var center := CenterBonus(Center, event.center, rates.center, event, id + |share|);
    NamedExact(CenterReferral, event.referrer, rates.referral, event, id + |share| + |center|);
    var referral := CenterBonus(CenterReferral, event.referrer, rates.referral, event, id + |share| + |center|);
    list := share + center + referral;
    ThreeShares(share, center, referral, rates, event, id);
  }

  lemma Cuts(a: seq<Bonus>, b: seq<Bonus>, c: seq<Bonus>)
    ensures var all := a + b + c;
      all[..|a|] == a && all[|a|..|a| + |b|] == b && all[|a| + |b|..] == c
  {
  }

  lemma Assemble(s: Store, rates: Rates, event: Event, id: nat, u: NodeId, b: NodeId, recommend: seq<Bonus>, sponsor: seq<Bonus>, direct: seq<Bonus>)
    requires u in s.nodes && b in s.nodes
    requires (Unilevel, event.userId) in s.byUser && u == s.byUser[(Unilevel, event.userId)]
    requires (Binary, event.userId) in s.byUser && b == s.byUser[(Binary, event.userId)]
    requires TreePaid(recommend, s, u, Recommend, 10, event, id)
    requires TreePaid(sponsor, s, b, Sponsor, 20, event, id + |recommend|)
    requires SharesPaid(direct, rates, event, id + |recommend| + |sponsor|)
    ensures OrderPaid(s, rates, event, id, Complete(recommend + sponsor + direct))
  {
    Cuts(recommend, sponsor, direct);
  }

  lemma Parts(upline: seq<Node>, line: seq<Node>, rates: Rates, event: Event, id: nat) returns (recommend: seq<Bonus>, sponsor: seq<Bonus>, direct: seq<Bonus>)
    requires |upline| <= |RECOMMEND| && |line| <= |SPONSOR|
    ensures recommend == Distribute(upline, Recommend, RECOMMEND, event, id)
    ensures sponsor == Distribute(line, Sponsor, SPONSOR, event, id + |recommend|)
    ensures direct == DirectBonuses(rates, event, id + |recommend| + |sponsor|)
    ensures ProcessWith(Some(upline), Some(line), rates, event, id) == Complete(recommend + sponsor + direct)
  {
    recommend := Distribute(upline, Recommend, RECOMMEND, event, id);
    sponsor := Distribute(line, Sponsor, SPONSOR, event, id + |recommend|);
    direct := DirectBonuses(rates, event, id + |recommend| + |sponsor|);
  }

  lemma PaidParts(upline: seq<Node>, line: seq<Node>, rates: Rates, event: Event, id: nat) returns (recommend: seq<Bonus>, sponsor: seq<Bonus>, direct: seq<Bonus>)
    requires |upline| <= |RECOMMEND| && |line| <= |SPONSOR|
    ensures recommend == Distribute(upline, Recommend, RECOMMEND, event, id)
    ensures sponsor == Distribute(line, Sponsor, SPONSOR, event, id + |recommend|)
    ensures SharesPaid(direct, rates, event, id + |recommend| + |sponsor|)
    ensures ProcessWith(Some(upline), Some(line), rates, event, id) == Complete(recommend + sponsor + direct)
  {
    recommend, sponsor, direct := Parts(upline, line, rates, event, id);
    var shares := SharesExact(rates, event, id + |recommend| + |sponsor|);
  }

  lemma BuyersLines(s: Store, rates: Rates, event: Event, id: nat, u: NodeId, b: NodeId) returns (upline: seq<Node>, line: seq<Node>)
    requires (Unilevel, event.userId) in s.byUser && u == s.byUser[(Unilevel, event.userId)] && u in s.nodes
    requires (Binary, event.userId) in s.byUser && b == s.byUser[(Binary, event.userId)] && b in s.nodes
    ensures upline == CollectAncestors(s.nodes, s.nodes[u], 10) && line == CollectAncestors(s.nodes, s.nodes[b], 20)
    ensures |upline| <= |RECOMMEND| && |line| <= |SPONSOR|
    ensures ProcessSpec(s, rates, event, id) == ProcessWith(Some(upline), Some(line), rates, event, id)
  {
    Tables(0);
    upline, line := CollectAncestors(s.nodes, s.nodes[u], 10), CollectAncestors(s.nodes, s.nodes[b], 20);
  }

  lemma BuyersParts(s: Store, rates: Rates, event: Event, id: nat, u: NodeId, b: NodeId)
    returns (recommend: seq<Bonus>, sponsor: seq<Bonus>, direct: seq<Bonus>)
    requires Inv(s) && u in s.nodes && b in s.nodes
    requires (Unilevel, event.userId) in s.byUser && u == s.byUser[(Unilevel, event.userId)]
    requires (Binary, event.userId) in s.byUser && b == s.byUser[(Binary, event.userId)]
    ensures TreePaid(recommend, s, u, Recommend, 10, event, id)
    ensures TreePaid(sponsor, s, b, Sponsor, 20, event, id + |recommend|)
    ensures SharesPaid(direct, rates, event, id + |recommend| + |sponsor|)
    ensures ProcessSpec(s, rates, event, id) == Complete(recommend + sponsor + direct)
  {
    var upline, line := BuyersLines(s, rates, event, id, u, b);
    recommend, sponsor, direct := PaidParts(upline, line, rates, event, id);
    Tables(0);
    TreeExact(s, u, Recommend, RECOMMEND, event, id);
    TreeExact(s, b, Sponsor, SPONSOR, event, id + |recommend|);
  }

  lemma BuyersOrder(s: Store, rates: Rates, event: Event, id: nat)
    requires Inv(s) && (Unilevel, event.userId) in s.byUser && (Binary, event.userId) in s.byUser
    ensures OrderPaid(s, rates, event, id, ProcessSpec(s, rates, event, id))
  {
    var u, b := s.byUser[(Unilevel, event.userId)], s.byUser[(Binary, event.userId)];
    assert UserOk(s, (Unilevel, event.userId)) && UserOk(s, (Binary, event.userId));
    var recommend, sponsor, direct := BuyersParts(s, rates, event, id, u, b);
    Assemble(s, rates, event, id, u, b, recommend, sponsor, direct);
  }

  lemma OutsidersOrder(s: Store, rates: Rates, event: Event, id: nat)
    requires Inv(s) && ((Unilevel, event.userId) !in s.byUser || (Binary, event.userId) !in s.byUser)
    ensures OrderPaid(s, rates, event, id, ProcessSpec(s, rates, event, id))
  {
    assert UserOk(s, (Unilevel, event.userId));
    if (Unilevel, event.userId) in s.byUser {
      Tables(0);
      TreeExact(s, s.byUser[(Unilevel, event.userId)], Recommend, RECOMMEND, event, id);
    }
  }

  lemma StoreOrder(s: Store, rates: Rates, event: Event, id: nat)
    requires Inv(s)
    ensures OrderPaid(s, rates, event, id, ProcessSpec(s, rates, event, id))
  {
    if (Unilevel, event.userId) in s.byUser && (Binary, event.userId) in s.byUser {
      BuyersOrder(s, rates, event, id);
    } else {
      OutsidersOrder(s, rates, event, id);
    }
  }

  /** On every run of the organisation service an order records exactly these entries. */
  lemma OrderExact(ops: seq<Op>, rates: Rates, event: Event, id: nat)
    requires forall i :: 0 <= i < |ops| ==> ValidId(ops[i].id)
    ensures OrderPaid(Run(ops), rates, event, id, ProcessSpec(Run(ops), rates, event, id))
  {
    RunKeeps(ops);
    StoreOrder(Run(ops), rates, event, id);
  }
}
