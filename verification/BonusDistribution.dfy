/** Bonuses of one order: ancestors are parsed back out of the stored path, each level gets
    its percentage, and share and center bonuses are added.  Amounts are exact reals; every
    bonus is rounded as the source rounds it. */
module BonusDistribution {
  import opened Wrappers
  import opened OrganizationStore
  import opened Organization
  import opened Decimals

  // ------------------------------------------------------------------- paths

  /** The pieces of s between the separators; always at least one. */
  function Split(s: string): (pieces: seq<string>)
    ensures |pieces| >= 1
  {
    if s == "" then [""]
    else
      var rest := Split(s[1..]);
      if s[0] == '/' then [""] + rest else [[s[0]] + rest[0]] + rest[1..]
  }

  function NonEmpty(pieces: seq<string>): seq<string> {
    if pieces == [] then []
    else NonEmpty(pieces[..|pieces| - 1]) + if pieces[|pieces| - 1] == "" then [] else [pieces[|pieces| - 1]]
  }

  function Segments(path: string): seq<string> { NonEmpty(Split(path)) }

  function Reverse<T>(s: seq<T>): (r: seq<T>)
    ensures |r| == |s| && forall i :: 0 <= i < |s| ==> r[i] == s[|s| - 1 - i]
  {
    if s == [] then [] else [s[|s| - 1]] + Reverse(s[..|s| - 1])
  }

  /** The stored nodes among ids, in their order. */
  function Known(nodes: map<NodeId, Node>, ids: seq<NodeId>): (known: seq<Node>)
    ensures |known| <= |ids|
  {
    if ids == [] then []
    else Known(nodes, ids[..|ids| - 1]) + if ids[|ids| - 1] in nodes then [nodes[ids[|ids| - 1]]] else []
  }

  /** The ids above the last one, nearest first, up to the limit. */
  function Above(ids: seq<NodeId>, maxLevels: nat): (above: seq<NodeId>)
    ensures |above| <= maxLevels
  {
    var all := Reverse(if ids == [] then [] else ids[..|ids| - 1]);
    if maxLevels < |all| then all[..maxLevels] else all
  }

  /** At most maxLevels ancestors of the node, nearest first, read off its path. */
  function CollectAncestors(nodes: map<NodeId, Node>, node: Node, maxLevels: nat): (ancestors: seq<Node>)
    ensures |ancestors| <= maxLevels
  {
    Known(nodes, Above(Segments(node.path), maxLevels))
  }

  // ----------------------------------------------------------------- bonuses

  datatype Kind = Recommend | Sponsor | Share | Center | CenterReferral

  datatype Bonus = Bonus(id: nat, userId: UserId, source: UserId, kind: Kind, orderId: string, level: nat,
                         pv: real, amount: real, ancestor: Option<NodeId>)

  /** center and referrer are the center user ids of the order's metadata. */
  datatype Event = Event(orderId: string, userId: UserId, pv: real, total: real,
                         center: Option<string>, referrer: Option<string>)

  datatype Rates = Rates(share: real, center: real, referral: real)

  const DEFAULT_RATES := Rates(0.05, 0.08, 0.02)

  const RECOMMEND: seq<real> := [0.30, 0.05, 0.05, 0.03, 0.02, 0.01, 0.01, 0.01, 0.01, 0.01]

  const SPONSOR: seq<real> := [0.01, 0.01, 0.01, 0.01, 0.01, 0.01, 0.01, 0.01, 0.01, 0.01,
                               0.01, 0.01, 0.01, 0.01, 0.01, 0.01, 0.01, 0.01, 0.01, 0.01]

  function LevelAmount(pv: real, percentage: real): real { Quantize4(pv * percentage) }

  function DirectAmount(total: real, rate: real): real { Truncate8(total * rate) }

  /** The bonuses of the first n ancestors; levels without a positive percentage are skipped. */
  function LevelBonuses(kind: Kind, percentages: seq<real>, ancestors: seq<Node>, event: Event, id: nat, n: nat): seq<Bonus>
    requires n <= |ancestors| && n <= |percentages|
  {
    if n == 0 then []
    else
      var before := LevelBonuses(kind, percentages, ancestors, event, id, n - 1);
      if percentages[n - 1] <= 0.0 then before
      else
        before + [Bonus(id + |before|, ancestors[n - 1].userId, event.userId, kind, event.orderId, n, event.pv,
                        LevelAmount(event.pv, percentages[n - 1]), Some(ancestors[n - 1].id))]
  }

  /** The ancestors of the buyer in the tree; None when the buyer is not registered there. */
  function Upline(s: Store, tree: TreeType, userId: UserId, maxLevels: nat): (upline: Option<seq<Node>>)
    ensures upline.Some? ==> |upline.value| <= maxLevels
  {
    if (tree, userId) !in s.byUser || s.byUser[(tree, userId)] !in s.nodes then None
    else Some(CollectAncestors(s.nodes, s.nodes[s.byUser[(tree, userId)]], maxLevels))
  }

  /** The level bonuses of one rule for the buyer with this upline. */
  function Distribute(upline: seq<Node>, kind: Kind, percentages: seq<real>, event: Event, id: nat): seq<Bonus>
    requires |upline| <= |percentages|
  {
    LevelBonuses(kind, percentages, upline, event, id, |upline|)
  }

  function DirectBonus(kind: Kind, userId: UserId, rate: real, event: Event, id: nat): seq<Bonus> {
    if rate <= 0.0 || DirectAmount(event.total, rate) <= 0.0 then []
    else [Bonus(id, userId, event.userId, kind, event.orderId, 0, event.pv, DirectAmount(event.total, rate), None)]
  }

  function CenterBonus(kind: Kind, userId: Option<string>, rate: real, event: Event, id: nat): seq<Bonus> {
    if userId.Some? && userId.value != "" then DirectBonus(kind, userId.value, rate, event, id) else []
  }

  /** What the pipeline records for one order, and whether it completes: an unregistered
      buyer raises a ValueError, after the recommend bonuses if only the binary tree lacks
      the buyer. */
  datatype Batch = Complete(records: seq<Bonus>) | Aborted(records: seq<Bonus>)

  function DirectBonuses(rates: Rates, event: Event, id: nat): seq<Bonus> {
    var share := DirectBonus(Share, event.userId, rates.share, event, id);
    var center := CenterBonus(Center, event.center, rates.center, event, id + |share|);
    share + center + CenterBonus(CenterReferral, event.referrer, rates.referral, event, id + |share| + |center|)
  }

  /** The order of a buyer with these uplines in the unilevel and the binary tree. */
  function ProcessWith(unilevel: Option<seq<Node>>, binary: Option<seq<Node>>, rates: Rates, event: Event, id: nat): Batch
    requires unilevel.Some? ==> |unilevel.value| <= |RECOMMEND|
    requires binary.Some? ==> |binary.value| <= |SPONSOR|
  {
    match unilevel
    case None => Aborted([])
    case Some(upline) =>
      var recommend := Distribute(upline, Recommend, RECOMMEND, event, id);
      match binary
      case None => Aborted(recommend)
      case Some(line) =>
        var sponsor := Distribute(line, Sponsor, SPONSOR, event, id + |recommend|);
        Complete(recommend + sponsor + DirectBonuses(rates, event, id + |recommend| + |sponsor|))
  }

  function ProcessSpec(s: Store, rates: Rates, event: Event, id: nat): Batch {
    ProcessWith(Upline(s, Unilevel, event.userId, |RECOMMEND|), Upline(s, Binary, event.userId, |SPONSOR|), rates, event, id)
  }

  function RestBonuses(line: seq<Node>, rates: Rates, event: Event, id: nat): seq<Bonus>
    requires |line| <= |SPONSOR|
  {
    var sponsor := Distribute(line, Sponsor, SPONSOR, event, id);
    sponsor + DirectBonuses(rates, event, id + |sponsor|)
  }

  lemma Assembled(unilevel: Option<seq<Node>>, binary: Option<seq<Node>>, rates: Rates, event: Event, id: nat,
                  recommend: seq<Bonus>, rest: seq<Bonus>)
    requires unilevel.Some? && |unilevel.value| <= |RECOMMEND| && binary.Some? && |binary.value| <= |SPONSOR|
    requires recommend == Distribute(unilevel.value, Recommend, RECOMMEND, event, id)
    requires rest == RestBonuses(binary.value, rates, event, id + |recommend|)
    ensures ProcessWith(unilevel, binary, rates, event, id) == Complete(recommend + rest)
  {
  }

  // ----------------------------------------------------------------- pipeline

  /** The pipeline with its bonus repository and id counter. */
  class BonusPipeline {
    const organizations: OrganizationRepository
    const rates: Rates
    var recorded: seq<Bonus>
    var nextId: nat

    constructor (organizations: OrganizationRepository, rates: Rates)
      ensures this.organizations == organizations && this.rates == rates && recorded == [] && nextId == 0
    {
      this.organizations, this.rates := organizations, rates;
      recorded, nextId := [], 0;
    }

    /** Assigns the next id and stores the bonus. */
    method Record(b: Bonus) returns (r: Bonus)
      modifies this
      ensures r == b.(id := old(nextId)) && recorded == old(recorded) + [r] && nextId == old(nextId) + 1
    {
      r := b.(id := nextId);
      recorded := recorded + [r];
      nextId := nextId + 1;
    }

    method FindUpline(tree: TreeType, userId: UserId, maxLevels: nat) returns (upline: Option<seq<Node>>)
      ensures upline == Upline(organizations.View(), tree, userId, maxLevels)
    {
      if (tree, userId) !in organizations.byUser || organizations.byUser[(tree, userId)] !in organizations.nodes {
        return None;
      }
      var node := organizations.nodes[organizations.byUser[(tree, userId)]];
      upline := Some(CollectAncestors(organizations.nodes, node, maxLevels));
    }

    method DistributeRule(upline: seq<Node>, kind: Kind, percentages: seq<real>, event: Event) returns (created: seq<Bonus>)
      requires |upline| <= |percentages|
      modifies this
      ensures created == Distribute(upline, kind, percentages, event, old(nextId))
      ensures recorded == old(recorded) + created && nextId == old(nextId) + |created|
    {
      created := [];
      for level := 1 to |upline| + 1
        invariant created == LevelBonuses(kind, percentages, upline, event, old(nextId), level - 1)
        invariant recorded == old(recorded) + created && nextId == old(nextId) + |created|
      {
        var ancestor := upline[level - 1];
        if percentages[level - 1] <= 0.0 {
          continue;
        }
        var amount := LevelAmount(event.pv, percentages[level - 1]);
        var b := Record(Bonus(0, ancestor.userId, event.userId, kind, event.orderId, level, event.pv, amount, Some(ancestor.id)));
        created := created + [b];
      }
    }

    method ApplyDirect(kind: Kind, userId: UserId, rate: real, event: Event) returns (created: seq<Bonus>)
      modifies this
      ensures created == DirectBonus(kind, userId, rate, event, old(nextId))
      ensures recorded == old(recorded) + created && nextId == old(nextId) + |created|
    {
      if rate <= 0.0 {
        return [];
      }
      var amount := DirectAmount(event.total, rate);
      if amount <= 0.0 {
        return [];
      }
      var b := Record(Bonus(0, userId, event.userId, kind, event.orderId, 0, event.pv, amount, None));
      created := [b];
    }

    method ApplyCenter(kind: Kind, userId: Option<string>, rate: real, event: Event) returns (created: seq<Bonus>)
      modifies this
      ensures created == CenterBonus(kind, userId, rate, event, old(nextId))
      ensures recorded == old(recorded) + created && nextId == old(nextId) + |created|
    {
      if userId.Some? && userId.value != "" {
        created := ApplyDirect(kind, userId.value, rate, event);
      } else {
        created := [];
      }
    }

    /** Failure is the ValueError of an unregistered buyer; what was recorded before it stays. */
    method ProcessOrder(event: Event) returns (r: Result<seq<Bonus>, ()>)
      modifies this
      ensures var batch := ProcessSpec(organizations.View(), rates, event, old(nextId));
        && recorded == old(recorded) + batch.records && nextId == old(nextId) + |batch.records|
        && r == if batch.Complete? then Success(batch.records) else Failure(())
    {
      var unilevel := FindUpline(Unilevel, event.userId, |RECOMMEND|);
      var binary := FindUpline(Binary, event.userId, |SPONSOR|);
      r := ProcessUplines(unilevel, binary, event);
    }

    /** The binary upline is used only after the recommend bonuses are recorded. */
    method ProcessUplines(unilevel: Option<seq<Node>>, binary: Option<seq<Node>>, event: Event) returns (r: Result<seq<Bonus>, ()>)
      requires unilevel.Some? ==> |unilevel.value| <= |RECOMMEND|
      requires binary.Some? ==> |binary.value| <= |SPONSOR|
      modifies this
      ensures var batch := ProcessWith(unilevel, binary, rates, event, old(nextId));
        && recorded == old(recorded) + batch.records && nextId == old(nextId) + |batch.records|
        && r == if batch.Complete? then Success(batch.records) else Failure(())
    {
      if unilevel.None? {
        return Failure(());
      }
      var recommend := DistributeRule(unilevel.value, Recommend, RECOMMEND, event);
      if binary.None? {
        return Failure(());
      }
      var rest := ApplyRest(binary.value, event);
      Assembled(unilevel, binary, rates, event, old(nextId), recommend, rest);
      r := Success(recommend + rest);
    }

    /** The sponsor bonuses and the direct ones. */
    method ApplyRest(line: seq<Node>, event: Event) returns (created: seq<Bonus>)
      requires |line| <= |SPONSOR|
      modifies this
      ensures created == RestBonuses(line, rates, event, old(nextId))
      ensures recorded == old(recorded) + created && nextId == old(nextId) + |created|
    {
      var sponsor := DistributeRule(line, Sponsor, SPONSOR, event);
      var direct := ApplyAll(event);
      created := sponsor + direct;
    }

    method ApplyAll(event: Event) returns (created: seq<Bonus>)
      modifies this
      ensures created == DirectBonuses(rates, event, old(nextId))
      ensures recorded == old(recorded) + created && nextId == old(nextId) + |created|
    {
      var share := ApplyDirect(Share, event.userId, rates.share, event);
      var center := ApplyCenter(Center, event.center, rates.center, event);
      var referral := ApplyCenter(CenterReferral, event.referrer, rates.referral, event);
      created := share + center + referral;
    }
  }
}
