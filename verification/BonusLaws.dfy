/** Laws of the bonus distribution: paths round-trip to ancestor chains, every level pays the
    right ancestor the right amount, and one order pays out no more than its rates allow. */
module BonusLaws {
  import opened Wrappers
  import opened OrganizationStore
  import opened OrganizationLaws
  import opened Organization
  import opened Decimals
  import opened BonusDistribution

  // ------------------------------------------------------------------- paths

  lemma {:induction false} SplitWhole(s: string)
    requires '/' !in s
    ensures Split(s) == [s]
  {
    if s != "" {
      SplitWhole(s[1..]);
      assert [s[0]] + s[1..] == s;
    }
  }

  /** Appending a separator and a separator-free piece appends that piece to the split. */
  lemma {:induction false} SplitAppend(s: string, piece: string)
    requires '/' !in piece
    ensures Split(s + "/" + piece) == Split(s) + [piece]
  {
    if s == "" {
      assert (s + "/" + piece)[1..] == piece;
      SplitWhole(piece);
      assert [""] + [piece] == Split(s) + [piece];
    } else {
      assert (s + "/" + piece)[1..] == s[1..] + "/" + piece;
      SplitAppend(s[1..], piece);
    }
  }

  lemma SegmentsAppend(path: string, id: NodeId)
    requires ValidId(id)
    ensures Segments(path + "/" + id) == Segments(path) + [id]
  {
    SplitAppend(path, id);
    assert (Split(path) + [id])[..|Split(path)|] == Split(path);
  }

  /** Path round trip: splitting the stored path of a node gives exactly the chain of ids
      from the root down to it. */
  lemma {:induction false} PathIsChain(s: Store, d: NodeId, depth: nat)
    requires Shape(s) && d in s.nodes && s.nodes[d].depth == depth
    ensures var ids := Segments(s.nodes[d].path);
      |ids| == depth + 1 && forall k: nat :: k <= depth ==> Ancestor(s.nodes, d, k) == Some(ids[depth - k])
    decreases depth
  {
    assert NodeOk(s, d);
    match s.nodes[d].parent
    case None =>
      SegmentsAppend("", d);
      assert "" + "/" + d == "/" + d;
      assert Split("") == [""];
      assert Segments("") == [];
    case Some(p) =>
      PathIsChain(s, p, depth - 1);
      SegmentsAppend(s.nodes[p].path, d);
  }

  lemma {:induction false} AllKnown(nodes: map<NodeId, Node>, ids: seq<NodeId>)
    requires forall i :: 0 <= i < |ids| ==> ids[i] in nodes
    ensures |Known(nodes, ids)| == |ids| && forall i :: 0 <= i < |ids| ==> Known(nodes, ids)[i] == nodes[ids[i]]
  {
    if ids != [] {
      AllKnown(nodes, ids[..|ids| - 1]);
    }
  }

  function Min(a: nat, b: nat): nat { if a < b then a else b }

  /** found lists the nearest min(depth, maxLevels) ancestors of d, nearest first. */
  ghost predicate Nearest(s: Store, d: NodeId, maxLevels: nat, found: seq<Node>)
    requires d in s.nodes
  {
    && |found| == Min(s.nodes[d].depth, maxLevels)
    && forall i :: 0 <= i < |found| ==>
         && Ancestor(s.nodes, d, i + 1) == Some(found[i].id)
         && found[i].id in s.nodes && found[i] == s.nodes[found[i].id]
  }

  /** The ancestors collected are the nearest ones, and none is filtered out. */
  lemma AncestorsCollected(s: Store, d: NodeId, maxLevels: nat)
    requires Shape(s) && d in s.nodes
    ensures Nearest(s, d, maxLevels, CollectAncestors(s.nodes, s.nodes[d], maxLevels))
  {
    var depth := s.nodes[d].depth;
    PathIsChain(s, d, depth);
    AncestorsOfChain(s, d, maxLevels, Segments(s.nodes[d].path));
  }

  lemma AncestorsOfChain(s: Store, d: NodeId, maxLevels: nat, ids: seq<NodeId>)
    requires Shape(s) && d in s.nodes && |ids| == s.nodes[d].depth + 1
    requires forall k: nat :: k <= s.nodes[d].depth ==> Ancestor(s.nodes, d, k) == Some(ids[s.nodes[d].depth - k])
    ensures Nearest(s, d, maxLevels, Known(s.nodes, Above(ids, maxLevels)))
  {
    AboveIds(ids, s.nodes[d].depth, maxLevels);
    AncestorsKnown(s, d, ids, Above(ids, maxLevels));
  }

  lemma AboveIds(ids: seq<NodeId>, depth: nat, maxLevels: nat)
    requires |ids| == depth + 1
    ensures |Above(ids, maxLevels)| == Min(depth, maxLevels)
    ensures forall i :: 0 <= i < |Above(ids, maxLevels)| ==> Above(ids, maxLevels)[i] == ids[depth - 1 - i]
  {
  }

  lemma AncestorsKnown(s: Store, d: NodeId, ids: seq<NodeId>, kept: seq<NodeId>)
    requires Shape(s) && d in s.nodes
    requires var depth := s.nodes[d].depth;
      && |ids| == depth + 1 && |kept| <= depth
      && (forall k: nat :: k <= depth ==> Ancestor(s.nodes, d, k) == Some(ids[depth - k]))
      && forall i :: 0 <= i < |kept| ==> kept[i] == ids[depth - 1 - i]
    ensures var found := Known(s.nodes, kept);
      && |found| == |kept|
      && forall i :: 0 <= i < |found| ==>
           && Ancestor(s.nodes, d, i + 1) == Some(found[i].id)
           && found[i].id in s.nodes && found[i] == s.nodes[found[i].id]
  {
    ShapeLinked(s);
    forall i | 0 <= i < |kept|
      ensures kept[i] in s.nodes && Ancestor(s.nodes, d, i + 1) == Some(kept[i]) && s.nodes[kept[i]].id == kept[i]
    {
      AncestorDepth(s.nodes, d, i + 1);
      assert NodeOk(s, kept[i]);
    }
    AllKnown(s.nodes, kept);
  }

  /** The same over every run of the organisation service. */
  lemma PathsOnEveryRun(ops: seq<Op>, d: NodeId, maxLevels: nat)
    requires (forall i :: 0 <= i < |ops| ==> ValidId(ops[i].id)) && d in Run(ops).nodes
    ensures var nodes := Run(ops).nodes;
      var ids, found := Segments(nodes[d].path), CollectAncestors(nodes, nodes[d], maxLevels);
      && |ids| == nodes[d].depth + 1
      && (forall k: nat :: k <= nodes[d].depth ==> Ancestor(nodes, d, k) == Some(ids[nodes[d].depth - k]))
      && Nearest(Run(ops), d, maxLevels, found)
  {
    RunKeeps(ops);
    PathIsChain(Run(ops), d, Run(ops).nodes[d].depth);
    AncestorsCollected(Run(ops), d, maxLevels);
  }

  // ------------------------------------------------------------ level bonuses

  /** Bonus b pays level b.level's ancestor that level's percentage, for this order. */
  ghost predicate PaysLevel(b: Bonus, kind: Kind, percentages: seq<real>, ancestors: seq<Node>, event: Event) {
    && 1 <= b.level <= |ancestors| && b.level <= |percentages| && percentages[b.level - 1] > 0.0
    && b.kind == kind && b.source == event.userId && b.orderId == event.orderId && b.pv == event.pv
    && b.userId == ancestors[b.level - 1].userId && b.ancestor == Some(ancestors[b.level - 1].id)
    && b.amount == LevelAmount(event.pv, percentages[b.level - 1])
  }

  /** Every entry pays its level, in order of the levels and under consecutive ids. */
  lemma {:induction false} LevelsSound(kind: Kind, percentages: seq<real>, ancestors: seq<Node>, event: Event, id: nat, n: nat)
    requires n <= |ancestors| && n <= |percentages|
    ensures var list := LevelBonuses(kind, percentages, ancestors, event, id, n);
      && |list| <= n
      && (forall i :: 0 <= i < |list| ==> PaysLevel(list[i], kind, percentages, ancestors, event) && list[i].level <= n && list[i].id == id + i)
      && (forall i, j :: 0 <= i < j < |list| ==> list[i].level < list[j].level)
  {
    if n > 0 {
      LevelsSound(kind, percentages, ancestors, event, id, n - 1);
    }
  }

  ghost predicate HasLevel(list: seq<Bonus>, k: nat) {
    exists i :: 0 <= i < |list| && list[i].level == k
  }

  /** Every level with a positive percentage has its entry. */
  lemma {:induction false} LevelsComplete(kind: Kind, percentages: seq<real>, ancestors: seq<Node>, event: Event, id: nat, n: nat, k: nat)
    requires k < n <= |ancestors| && n <= |percentages| && percentages[k] > 0.0
    ensures HasLevel(LevelBonuses(kind, percentages, ancestors, event, id, n), k + 1)
  {
    var before := LevelBonuses(kind, percentages, ancestors, event, id, n - 1);
    var list := LevelBonuses(kind, percentages, ancestors, event, id, n);
    if k < n - 1 {
      LevelsComplete(kind, percentages, ancestors, event, id, n - 1, k);
      var i :| 0 <= i < |before| && before[i].level == k + 1;
      assert list[i].level == k + 1;
    } else {
      assert list[|before|].level == k + 1;
    }
  }

  /** On every run of the organisation service the k-th level bonus goes to the k-th ancestor
      at percentages[k-1], for every existing level. */
  lemma KthLevelPaid(ops: seq<Op>, tree: TreeType, kind: Kind, percentages: seq<real>, event: Event, id: nat)
    requires forall i :: 0 <= i < |ops| ==> ValidId(ops[i].id)
    requires forall i :: 0 <= i < |percentages| ==> percentages[i] > 0.0
    requires (tree, event.userId) in Run(ops).byUser
    ensures var s := Run(ops);
      var d := s.byUser[(tree, event.userId)];
      var upline := Upline(s, tree, event.userId, |percentages|);
      && d in s.nodes && upline.Some?
      && var paid := Distribute(upline.value, kind, percentages, event, id);
      && |paid| == Min(s.nodes[d].depth, |percentages|)
      && forall i :: 0 <= i < |paid| ==> PaidTo(paid[i], s, d, event.pv, percentages, id, i)
  {
    RunKeeps(ops);
    var s := Run(ops);
    var d := s.byUser[(tree, event.userId)];
    assert UserOk(s, (tree, event.userId));
    NodePaid(s, d, kind, percentages, event, id);
  }

  lemma NodePaid(s: Store, d: NodeId, kind: Kind, percentages: seq<real>, event: Event, id: nat)
    requires Inv(s) && d in s.nodes && forall i :: 0 <= i < |percentages| ==> percentages[i] > 0.0
    ensures var paid := Distribute(CollectAncestors(s.nodes, s.nodes[d], |percentages|), kind, percentages, event, id);
      && |paid| == Min(s.nodes[d].depth, |percentages|)
      && forall i :: 0 <= i < |paid| ==> PaidTo(paid[i], s, d, event.pv, percentages, id, i)
  {
    var found := CollectAncestors(s.nodes, s.nodes[d], |percentages|);
    AncestorsCollected(s, d, |percentages|);
    EveryLevel(kind, percentages, found, event, id, |found|);
  }

  /** Bonus b pays the (i+1)-th ancestor of node d the percentage of that level. */
  ghost predicate PaidTo(b: Bonus, s: Store, d: NodeId, pv: real, percentages: seq<real>, id: nat, i: nat)
    requires i < |percentages|
  {
    && b.level == i + 1 && b.id == id + i
    && b.amount == LevelAmount(pv, percentages[i])
    && Ancestor(s.nodes, d, i + 1).Some? && b.ancestor == Ancestor(s.nodes, d, i + 1)
    && b.ancestor.value in s.nodes && b.userId == s.nodes[b.ancestor.value].userId
  }

  /** With positive percentages throughout, entry i is level i+1. */
  lemma {:induction false} EveryLevel(kind: Kind, percentages: seq<real>, ancestors: seq<Node>, event: Event, id: nat, n: nat)
    requires n <= |ancestors| && n <= |percentages| && forall i :: 0 <= i < |percentages| ==> percentages[i] > 0.0
    ensures var list := LevelBonuses(kind, percentages, ancestors, event, id, n);
      && |list| == n
      && forall i :: 0 <= i < n ==>
           && list[i].level == i + 1 && list[i].id == id + i && list[i].ancestor == Some(ancestors[i].id)
           && list[i].userId == ancestors[i].userId && list[i].amount == LevelAmount(event.pv, percentages[i])
  {
    if n > 0 {
      EveryLevel(kind, percentages, ancestors, event, id, n - 1);
    }
  }

  // ------------------------------------------------------------------ payouts

  function Sum(list: seq<Bonus>): real {
    if list == [] then 0.0 else Sum(list[..|list| - 1]) + list[|list| - 1].amount
  }

  lemma {:induction false} SumAppend(a: seq<Bonus>, b: seq<Bonus>)
    ensures Sum(a + b) == Sum(a) + Sum(b)
  {
    if b == [] {
      assert a + b == a;
    } else {
      assert (a + b)[..|a + b| - 1] == a + b[..|b| - 1];
      SumAppend(a, b[..|b| - 1]);
    }
  }

  function Prefix(percentages: seq<real>, n: nat): real
    requires n <= |percentages|
  {
    if n == 0 then 0.0 else Prefix(percentages, n - 1) + percentages[n - 1]
  }

  lemma Distributes(a: real, b: real, c: real)
    ensures a * (b + c) == a * b + a * c
  {
  }

  lemma LessTimes(a: real, b: real, c: real)
    requires a >= 0.0 && b <= c
    ensures a * b <= a * c
  {
    Distributes(a, b, c - b);
    NonNegativeTimes(a, c - b);
  }

  lemma NonNegativeTimes(a: real, b: real)
    requires a >= 0.0 && b >= 0.0
    ensures a * b >= 0.0
  {
  }

  function Product(a: real, b: real): real { a * b }

  /** What the first n levels would pay without rounding. */
  function Unrounded(pv: real, percentages: seq<real>, n: nat): real
    requires n <= |percentages|
  {
    if n == 0 then 0.0 else Unrounded(pv, percentages, n - 1) + Product(pv, percentages[n - 1])
  }

  lemma {:induction false} UnroundedIsProduct(pv: real, percentages: seq<real>, n: nat)
    requires n <= |percentages|
    ensures Unrounded(pv, percentages, n) == Product(pv, Prefix(percentages, n))
  {
    if n > 0 {
      UnroundedIsProduct(pv, percentages, n - 1);
      Distributes(pv, Prefix(percentages, n - 1), percentages[n - 1]);
    }
  }

  lemma LevelAmountError(pv: real, p: real)
    ensures LevelAmount(pv, p) <= Product(pv, p) + 0.00005
  {
    Quantize4Error(pv * p);
  }

  /** The sum of the level bonuses, read off their amounts alone. */
  function Amounts(pv: real, percentages: seq<real>, n: nat): real
    requires n <= |percentages|
  {
    if n == 0 then 0.0 else Amounts(pv, percentages, n - 1) + LevelAmount(pv, percentages[n - 1])
  }

  lemma {:induction false} LevelsSum(kind: Kind, percentages: seq<real>, ancestors: seq<Node>, event: Event, id: nat, n: nat)
    requires n <= |ancestors| && n <= |percentages| && forall i :: 0 <= i < |percentages| ==> percentages[i] > 0.0
    ensures var list := LevelBonuses(kind, percentages, ancestors, event, id, n);
      Sum(list) == Amounts(event.pv, percentages, n) && LevelCount(list) == n == |list|
  {
    if n > 0 {
      LevelsSum(kind, percentages, ancestors, event, id, n - 1);
      var list := LevelBonuses(kind, percentages, ancestors, event, id, n);
      assert list[..|list| - 1] == LevelBonuses(kind, percentages, ancestors, event, id, n - 1);
    }
  }

  /** The level entries among the bonuses; share and center entries have level 0. */
  function LevelCount(list: seq<Bonus>): nat {
    if list == [] then 0 else LevelCount(list[..|list| - 1]) + if list[|list| - 1].level > 0 then 1 else 0
  }

  lemma {:induction false} LevelCountAppend(a: seq<Bonus>, b: seq<Bonus>)
    ensures LevelCount(a + b) == LevelCount(a) + LevelCount(b)
  {
    if b == [] {
      assert a + b == a;
    } else {
      assert (a + b)[..|a + b| - 1] == a + b[..|b| - 1];
      LevelCountAppend(a, b[..|b| - 1]);
    }
  }

  /** The amounts exceed the unrounded ones by at most half a unit each. */
  lemma {:induction false} AmountsBounded(pv: real, percentages: seq<real>, n: nat)
    requires n <= |percentages|
    ensures Amounts(pv, percentages, n) <= Unrounded(pv, percentages, n) + n as real * 0.00005
  {
    if n > 0 {
      AmountsBounded(pv, percentages, n - 1);
      LevelAmountError(pv, percentages[n - 1]);
    }
  }

  ghost predicate IsHundredths(p: real, q: int) { p * 100.0 == q as real }

  /** A percentage that is a whole number of hundredths. */
  ghost predicate Hundredths(p: real) { exists q: int :: IsHundredths(p, q) }

  lemma ExactProduct(pv: real, c: int, p: real)
    requires IsHundredths(pv, c) && Hundredths(p)
    ensures LevelAmount(pv, p) == Product(pv, p)
  {
    var q: int :| IsHundredths(p, q);
    var n := c * q;
    calc {
      (pv * p) * 10000.0;
      (pv * 100.0) * (p * 100.0);
      c as real * q as real;
      n as real;
    }
    Quantize4Exact(pv * p, n);
  }

  lemma {:induction false} AmountsExact(pv: real, percentages: seq<real>, n: nat, c: int)
    requires n <= |percentages| && (forall i :: 0 <= i < |percentages| ==> Hundredths(percentages[i])) && IsHundredths(pv, c)
    ensures Amounts(pv, percentages, n) == Unrounded(pv, percentages, n)
  {
    if n > 0 {
      AmountsExact(pv, percentages, n - 1, c);
      ExactProduct(pv, c, percentages[n - 1]);
    }
  }

  /** When pv has at most two decimals the level bonuses sum to exactly pv times the
      percentages of the levels that exist: rounding changes nothing. */
  lemma LevelsExact(upline: seq<Node>, kind: Kind, percentages: seq<real>, event: Event, id: nat, c: int)
    requires |upline| <= |percentages| && IsHundredths(event.pv, c)
    requires forall i :: 0 <= i < |percentages| ==> percentages[i] > 0.0
    requires forall i :: 0 <= i < |percentages| ==> Hundredths(percentages[i])
    ensures Sum(Distribute(upline, kind, percentages, event, id)) == Product(event.pv, Prefix(percentages, |upline|))
  {
    LevelsSum(kind, percentages, upline, event, id, |upline|);
    AmountsAreProduct(event.pv, percentages, |upline|, c);
  }

  lemma AmountsAreProduct(pv: real, percentages: seq<real>, n: nat, c: int)
    requires n <= |percentages| && (forall i :: 0 <= i < |percentages| ==> Hundredths(percentages[i])) && IsHundredths(pv, c)
    ensures Amounts(pv, percentages, n) == Product(pv, Prefix(percentages, n))
  {
    AmountsExact(pv, percentages, n, c);
    UnroundedIsProduct(pv, percentages, n);
  }

  lemma {:induction false} PrefixGrows(percentages: seq<real>, n: nat, m: nat)
    requires n <= m <= |percentages| && forall i :: 0 <= i < |percentages| ==> percentages[i] > 0.0
    ensures Prefix(percentages, n) <= Prefix(percentages, m)
    decreases m
  {
    if n < m {
      PrefixGrows(percentages, n, m - 1);
    }
  }

  lemma {:induction false} SponsorPrefix(n: nat)
    requires n <= 20
    ensures Prefix(SPONSOR, n) == n as real * 0.01
  {
    if n > 0 {
      SponsorPrefix(n - 1);
    }
  }

  /** The default tables: positive whole hundredths, adding up to one half and one fifth. */
  lemma DefaultTables()
    ensures forall i :: 0 <= i < |RECOMMEND| ==> RECOMMEND[i] > 0.0 && Hundredths(RECOMMEND[i])
    ensures forall i :: 0 <= i < |SPONSOR| ==> SPONSOR[i] > 0.0 && Hundredths(SPONSOR[i])
    ensures |RECOMMEND| == 10 && Prefix(RECOMMEND, 10) == 0.50
    ensures |SPONSOR| == 20 && Prefix(SPONSOR, 20) == 0.20
  {
    assert IsHundredths(0.30, 30) && IsHundredths(0.05, 5) && IsHundredths(0.03, 3);
    assert IsHundredths(0.02, 2) && IsHundredths(0.01, 1);
    assert forall i :: 0 <= i < |SPONSOR| ==> SPONSOR[i] == 0.01;
    assert Prefix(RECOMMEND, 3) == 0.40;
    assert Prefix(RECOMMEND, 5) == 0.45;
    assert Prefix(RECOMMEND, 7) == 0.47;
    assert Prefix(RECOMMEND, 9) == 0.49;
    SponsorPrefix(20);
  }

  lemma DirectBounded(kind: Kind, userId: UserId, rate: real, event: Event, id: nat)
    requires event.total >= 0.0 && rate >= 0.0
    ensures Sum(DirectBonus(kind, userId, rate, event, id)) <= event.total * rate
  {
    NonNegativeTimes(event.total, rate);
    Truncate8Below(event.total * rate);
    var list := DirectBonus(kind, userId, rate, event, id);
    if list != [] {
      assert list[..0] == [];
    }
  }

  lemma DirectsBounded(event: Event, id: nat)
    requires event.total >= 0.0
    ensures Sum(DirectBonuses(DEFAULT_RATES, event, id)) <= 0.15 * event.total
  {
    var rates := DEFAULT_RATES;
    var share := DirectBonus(Share, event.userId, rates.share, event, id);
    var center := CenterBonus(Center, event.center, rates.center, event, id + |share|);
    var referral := CenterBonus(CenterReferral, event.referrer, rates.referral, event, id + |share| + |center|);
    DirectBounded(Share, event.userId, rates.share, event, id);
    DirectBounded(Center, event.center.GetOr(""), rates.center, event, id + |share|);
    DirectBounded(CenterReferral, event.referrer.GetOr(""), rates.referral, event, id + |share| + |center|);
    SumAppend(share, center);
    SumAppend(share + center, referral);
  }

  lemma AmountsWithin(pv: real, percentages: seq<real>, n: nat)
    requires pv >= 0.0 && n <= |percentages| && forall i :: 0 <= i < |percentages| ==> percentages[i] > 0.0
    ensures Amounts(pv, percentages, n) <= Product(pv, Prefix(percentages, |percentages|)) + n as real * 0.00005
  {
    AmountsBounded(pv, percentages, n);
    UnroundedIsProduct(pv, percentages, n);
    PrefixGrows(percentages, n, |percentages|);
    ProductGrows(pv, Prefix(percentages, n), Prefix(percentages, |percentages|));
  }

  lemma ProductGrows(a: real, b: real, c: real)
    requires a >= 0.0 && b <= c
    ensures Product(a, b) <= Product(a, c)
  {
    LessTimes(a, b, c);
  }

  /** One rule's level bonuses, against the sum of its whole table. */
  ghost predicate RuleWithin(list: seq<Bonus>, pv: real, levels: nat, share: real) {
    LevelCount(list) == |list| <= levels && Sum(list) <= Product(pv, share) + |list| as real * 0.00005
  }

  lemma RuleBounded(upline: seq<Node>, kind: Kind, percentages: seq<real>, event: Event, id: nat)
    requires |upline| <= |percentages|
    requires event.pv >= 0.0 && forall i :: 0 <= i < |percentages| ==> percentages[i] > 0.0
    ensures RuleWithin(Distribute(upline, kind, percentages, event, id), event.pv, |percentages|, Prefix(percentages, |percentages|))
  {
    LevelsSum(kind, percentages, upline, event, id, |upline|);
    AmountsWithin(event.pv, percentages, |upline|);
  }

  lemma DirectsHaveNoLevel(rates: Rates, event: Event, id: nat)
    ensures LevelCount(DirectBonuses(rates, event, id)) == 0
  {
    var share := DirectBonus(Share, event.userId, rates.share, event, id);
    var center := CenterBonus(Center, event.center, rates.center, event, id + |share|);
    var referral := CenterBonus(CenterReferral, event.referrer, rates.referral, event, id + |share| + |center|);
    LevelCountAppend(share, center);
    LevelCountAppend(share + center, referral);
  }

  /** The sum and level count of a batch, from its three parts. */
  lemma PartsBounded(event: Event, recommend: seq<Bonus>, sponsor: seq<Bonus>, id: nat)
    requires event.pv >= 0.0 && event.total >= 0.0
    requires RuleWithin(recommend, event.pv, 10, 0.50) && RuleWithin(sponsor, event.pv, 20, 0.20)
    ensures WithinBound(recommend + sponsor + DirectBonuses(DEFAULT_RATES, event, id), event)
  {
    var direct := DirectBonuses(DEFAULT_RATES, event, id);
    DirectsBounded(event, id);
    DirectsHaveNoLevel(DEFAULT_RATES, event, id);
    SumAppend(recommend, sponsor);
    SumAppend(recommend + sponsor, direct);
    LevelCountAppend(recommend, sponsor);
    LevelCountAppend(recommend + sponsor, direct);
  }

  /** The records are within the bound: 0.70 of pv and 0.15 of total, plus half a unit of the
      fourth decimal for each of at most 30 level entries. */
  ghost predicate WithinBound(all: seq<Bonus>, event: Event) {
    && LevelCount(all) <= 30
    && Sum(all) <= 0.70 * event.pv + 0.15 * event.total + LevelCount(all) as real * 0.00005
  }

  lemma RecommendBounded(upline: seq<Node>, event: Event, id: nat)
    requires event.pv >= 0.0 && |upline| <= |RECOMMEND|
    ensures RuleWithin(Distribute(upline, Recommend, RECOMMEND, event, id), event.pv, 10, 0.50)
  {
    DefaultTables();
    RuleBounded(upline, Recommend, RECOMMEND, event, id);
  }

  lemma SponsorBounded(upline: seq<Node>, event: Event, id: nat)
    requires event.pv >= 0.0 && |upline| <= |SPONSOR|
    ensures RuleWithin(Distribute(upline, Sponsor, SPONSOR, event, id), event.pv, 20, 0.20)
  {
    DefaultTables();
    RuleBounded(upline, Sponsor, SPONSOR, event, id);
  }

  lemma RecommendAlone(event: Event, recommend: seq<Bonus>)
    requires event.pv >= 0.0 && event.total >= 0.0 && RuleWithin(recommend, event.pv, 10, 0.50)
    ensures WithinBound(recommend, event)
  {
  }

  /** Payout bound: with the default rates one order, complete or aborted, stays within it. */
  lemma PayoutBound(s: Store, event: Event, id: nat)
    requires event.pv >= 0.0 && event.total >= 0.0
    ensures WithinBound(ProcessSpec(s, DEFAULT_RATES, event, id).records, event)
  {
    UplinesBounded(Upline(s, Unilevel, event.userId, |RECOMMEND|), Upline(s, Binary, event.userId, |SPONSOR|), event, id);
  }

  lemma UplinesBounded(unilevel: Option<seq<Node>>, binary: Option<seq<Node>>, event: Event, id: nat)
    requires event.pv >= 0.0 && event.total >= 0.0
    requires unilevel.Some? ==> |unilevel.value| <= |RECOMMEND|
    requires binary.Some? ==> |binary.value| <= |SPONSOR|
    ensures WithinBound(ProcessWith(unilevel, binary, DEFAULT_RATES, event, id).records, event)
  {
    if unilevel.Some? {
      RecommendBounded(unilevel.value, event, id);
      var recommend := Distribute(unilevel.value, Recommend, RECOMMEND, event, id);
      if binary.None? {
        RecommendAlone(event, recommend);
      } else {
        SponsorBounded(binary.value, event, id + |recommend|);
        var sponsor := Distribute(binary.value, Sponsor, SPONSOR, event, id + |recommend|);
        PartsBounded(event, recommend, sponsor, id + |recommend| + |sponsor|);
      }
    }
  }
}
