/** What every run of the organisation service guarantees: the closure table is exactly
    ancestry, slots and spillover log mirror the parent links, and a binary tree whose
    members all name the root as sponsor grows in level order. */
module OrganizationRuns {
  import opened Wrappers
  import opened OrganizationStore
  import opened OrganizationLaws
  import opened Organization
  import opened OrganizationCalls

  ghost predicate ValidIds(ops: seq<Op>) {
    forall i :: 0 <= i < |ops| ==> ValidId(ops[i].id)
  }

  // ------------------------------------------------------------ closure table

  /** The closure table of every run holds row (a, d, t, n), once, exactly when a is the
      n-th ancestor of d in tree t, and relates two nodes by at most one row. */
  lemma ClosureIsAncestry(ops: seq<Op>, row: ClosureRow, other: ClosureRow)
    requires ValidIds(ops)
    ensures var s := Run(ops);
      && (row in s.closure <==>
            Ancestor(s.nodes, row.descendant, row.depth) == Some(row.ancestor) && s.nodes[row.descendant].tree == row.tree)
      && RowsDistinct(s.closure)
      && (row in s.closure && other in s.closure && row.ancestor == other.ancestor && row.descendant == other.descendant
          ==> row == other)
  {
    RunKeeps(ops);
    var s := Run(ops);
    ShapeLinked(s);
    assert RowOk(s.nodes, s.closure, row) && RowOk(s.nodes, s.closure, other);
    AncestorDepth(s.nodes, row.descendant, row.depth);
    AncestorDepth(s.nodes, other.descendant, other.depth);
  }

  lemma {:induction false} ReachesRoot(s: Store, d: NodeId, k: nat)
    requires Shape(s) && d in s.nodes && s.nodes[d].depth == k
    ensures var r := Ancestor(s.nodes, d, k);
      r.Some? && r.value in s.nodes && s.nodes[r.value].parent.None?
    ensures Ancestor(s.nodes, d, k + 1).None?
    decreases k
  {
    assert NodeOk(s, d);
    if s.nodes[d].parent.Some? {
      ReachesRoot(s, s.nodes[d].parent.value, k - 1);
    }
  }

  /** Going up depth steps from d leads to a root, and one more step nowhere. */
  ghost predicate AtDepth(nodes: map<NodeId, Node>, d: NodeId)
    requires d in nodes
  {
    var r := Ancestor(nodes, d, nodes[d].depth);
    && r.Some? && r.value in nodes && nodes[r.value].parent.None?
    && Ancestor(nodes, d, nodes[d].depth + 1).None?
  }

  lemma ShapeDepth(s: Store, d: NodeId)
    requires Shape(s) && d in s.nodes
    ensures AtDepth(s.nodes, d)
  {
    ReachesRoot(s, d, s.nodes[d].depth);
  }

  /** The depth column is the distance to the root. */
  lemma DepthIsDistance(ops: seq<Op>, d: NodeId)
    requires ValidIds(ops) && d in Run(ops).nodes
    ensures AtDepth(Run(ops).nodes, d)
  {
    RunKeeps(ops);
    ShapeDepth(Run(ops), d);
  }

  // --------------------------------------------------------- slots and spillovers

  /** On every run a slot row exists for both slots of every binary node and no other, and
      is filled with c exactly when c's parent and position are that node and slot. */
  lemma SlotsMirrorChildren(ops: seq<Op>, p: NodeId, x: Slot, c: NodeId)
    requires ValidIds(ops)
    ensures var s := Run(ops);
      && ((p, x) in s.slots <==> p in s.nodes && s.nodes[p].tree == Binary)
      && ((p, x) in s.slots ==>
            (s.slots[(p, x)] == Filled(c) <==> c in s.nodes && s.nodes[c].parent == Some(p) && s.nodes[c].position == Some(x)))
  {
    RunKeeps(ops);
    assert SlotOk(Run(ops).nodes, Run(ops).slots, p, x);
  }

  /** On every run the log holds one entry about a binary member when its parent is not its
      sponsor's node - the parent is then strictly below the sponsor - and none otherwise. */
  lemma SpilloversLogged(ops: seq<Op>, c: NodeId)
    requires ValidIds(ops) && c in Run(ops).nodes && Run(ops).nodes[c].tree == Binary
    ensures var s := Run(ops); var n := s.nodes[c];
      if n.parent.None? then LogsOf(s.spillovers, n.userId) == []
      else
        && n.sponsor.Some? && n.position.Some? && (Binary, n.sponsor.value) in s.byUser
        && var home := s.byUser[(Binary, n.sponsor.value)];
        && LogsOf(s.spillovers, n.userId) == (if n.parent.value == home then [] else [LogEntry(n)])
        && (n.parent.value != home ==> exists k: nat :: k >= 1 && Ancestor(s.nodes, n.parent.value, k) == Some(home))
  {
    RunKeeps(ops);
    var s := Run(ops);
    var n := s.nodes[c];
    assert NodeOk(s, c) && SpillOk(s, n.userId);
    if n.parent.Some? {
      var home := s.byUser[(Binary, n.sponsor.value)];
      var k: nat :| Ancestor(s.nodes, n.parent.value, k) == Some(home);
    }
  }

  // ---------------------------------------------------------------- level order

  /** ids lists the nodes that have a place below root, each at its place.  These are all
      the nodes below root, as BelowListed says. */
  ghost predicate LevelOrdered(nodes: map<NodeId, Node>, root: NodeId, ids: seq<NodeId>) {
    && Front(nodes, root, ids)
    && forall c, k: nat {:trigger HeapAt(nodes, root, c, k)} :: HeapAt(nodes, root, c, k) ==> k <= |ids|
  }

  lemma PlaceAbove(nodes: map<NodeId, Node>, root: NodeId, c: NodeId, n: nat)
    requires Ancestor(nodes, c, n) == Some(root)
    ensures n > 0 ==> c in nodes && nodes[c].parent.Some? && Ancestor(nodes, nodes[c].parent.value, n - 1) == Some(root)
    ensures n == 0 ==> c == root && root in nodes
  {
  }

  /** Every node below a binary node has a place below it. */
  lemma {:induction false} BelowPlace(s: Store, root: NodeId, c: NodeId, n: nat) returns (k: nat)
    requires Shape(s) && Ancestor(s.nodes, c, n) == Some(root) && c in s.nodes && s.nodes[c].tree == Binary
    ensures HeapAt(s.nodes, root, c, k)
    decreases n
  {
    PlaceAbove(s.nodes, root, c, n);
    if n == 0 {
      k := 1;
    } else {
      assert NodeOk(s, c);
      var p, x := s.nodes[c].parent.value, s.nodes[c].position.value;
      var j := BelowPlace(s, root, p, n - 1);
      k := if x == L then 2 * j else 2 * j + 1;
      ChildPlace(s.nodes, root, p, j, c, x);
    }
  }

  /** The listing holds exactly the nodes below the root. */
  lemma BelowListed(s: Store, root: NodeId, ids: seq<NodeId>, c: NodeId)
    requires Shape(s) && IsRoot(s, root) && LevelOrdered(s.nodes, root, ids)
    ensures Below(s.nodes, root, c) <==> c in ids
  {
    if Below(s.nodes, root, c) {
      var n: nat :| Ancestor(s.nodes, c, n) == Some(root);
      SameTreeAbove(s, c, n, root);
      var k := BelowPlace(s, root, c, n);
      assert HeapAt(s.nodes, root, ids[k - 1], k);
      OccupantUnique(s, root, c, ids[k - 1], k);
    }
    if c in ids {
      var i :| 0 <= i < |ids| && ids[i] == c;
      assert HeapAt(s.nodes, root, ids[i], i + 1);
      PlaceBelow(s.nodes, root, c, i + 1);
    }
  }

  lemma {:induction false} SameTreeAbove(s: Store, c: NodeId, n: nat, a: NodeId)
    requires Shape(s) && Ancestor(s.nodes, c, n) == Some(a) && a in s.nodes
    ensures c in s.nodes && s.nodes[c].tree == s.nodes[a].tree
    decreases n
  {
    PlaceAbove(s.nodes, a, c, n);
    if n > 0 {
      assert NodeOk(s, c);
      SameTreeAbove(s, s.nodes[c].parent.value, n - 1, a);
    }
  }

  /** With the tree filled up to place |ids|, the first free slot is the next place. */
  lemma NextPlace(s: Store, root: NodeId, ids: seq<NodeId>, p: NodeId, x: Slot)
    requires Shape(s) && LevelOrdered(s.nodes, root, ids) && |ids| >= 1 && FirstFreeSlot(s.nodes, root, p, x)
    ensures FirstFree(s.nodes, root, p, x, |ids| + 1) && p == ids[(|ids| + 1) / 2 - 1]
  {
    var m: nat :| FirstFree(s.nodes, root, p, x, m);
    var next := |ids| + 1;
    assert !Occupied(s.nodes, root, next);
    if m < next {
      FrontOccupied(s.nodes, root, ids, m);
    }
    assert m == next;
    assert HeapAt(s.nodes, root, ids[next / 2 - 1], next / 2);
    OccupantUnique(s, root, p, ids[next / 2 - 1], next / 2);
  }

  lemma FrontOccupied(nodes: map<NodeId, Node>, root: NodeId, ids: seq<NodeId>, m: nat)
    requires Front(nodes, root, ids) && 1 <= m <= |ids|
    ensures Occupied(nodes, root, m)
  {
    assert HeapAt(nodes, root, ids[m - 1], m);
  }

  /** A node inserted at the next place extends the listing. */
  lemma NextMember(s: Store, n: Node, root: NodeId, ids: seq<NodeId>, p: NodeId, x: Slot)
    requires Inv(s) && Attachable(s, n) && n.parent == Some(p) && n.position == Some(x) && root in s.nodes
    requires LevelOrdered(s.nodes, root, ids) && FirstFree(s.nodes, root, p, x, |ids| + 1)
    ensures LevelOrdered(Insert(s, n).nodes, root, ids + [n.id])
  {
    ShapeLinked(s);
    LeafPlace(s.nodes, n, root, |ids| + 1);
    var nodes' := Insert(s, n).nodes;
    FrontExtends(s.nodes, nodes', n, root, ids);
    forall c, k: nat | HeapAt(nodes', root, c, k) ensures k <= |ids| + 1 {
      NoLaterPlace(s, n, root, ids, c, k);
    }
  }

  lemma FrontExtends(nodes: map<NodeId, Node>, nodes': map<NodeId, Node>, n: Node, root: NodeId, ids: seq<NodeId>)
    requires Linked(nodes) && n.id !in nodes && root in nodes && nodes' == nodes[n.id := n]
    requires Front(nodes, root, ids) && HeapAt(nodes', root, n.id, |ids| + 1)
    ensures Front(nodes', root, ids + [n.id])
  {
    var ids' := ids + [n.id];
    forall i | 0 <= i < |ids'| ensures HeapAt(nodes', root, ids'[i], i + 1) {
      if i < |ids| {
        KeepsPlace(nodes, nodes', n, root, ids[i], i + 1);
      }
    }
  }

  lemma KeepsPlace(nodes: map<NodeId, Node>, nodes': map<NodeId, Node>, n: Node, root: NodeId, c: NodeId, k: nat)
    requires Linked(nodes) && n.id !in nodes && root in nodes && nodes' == nodes[n.id := n] && HeapAt(nodes, root, c, k)
    ensures HeapAt(nodes', root, c, k)
  {
    LeafKeepsPlace(nodes, n, root, c, k);
  }

  lemma NoLaterPlace(s: Store, n: Node, root: NodeId, ids: seq<NodeId>, c: NodeId, k: nat)
    requires Inv(s) && Attachable(s, n) && root in s.nodes && LevelOrdered(s.nodes, root, ids)
    requires HeapAt(Insert(s, n).nodes, root, n.id, |ids| + 1) && HeapAt(Insert(s, n).nodes, root, c, k)
    ensures k <= |ids| + 1
  {
    ShapeLinked(s);
    if c in s.nodes {
      LeafKeepsPlace(s.nodes, n, root, c, k);
    } else {
      OnePlace(s, n, root, c, k, |ids| + 1);
    }
  }

  /** A member sponsored by the root takes the next place in level order. */
  lemma RootSponsored(s: Store, root: NodeId, ids: seq<NodeId>, userId: UserId, sponsor: UserId, id: NodeId)
    requires Inv(s) && ValidId(id) && LevelOrdered(s.nodes, root, ids) && |ids| >= 1
    requires (Binary, sponsor) in s.byUser && s.byUser[(Binary, sponsor)] == root
    requires AddMemberSpec(s, Binary, userId, sponsor, id).1.Success?
    ensures LevelOrdered(AddMemberSpec(s, Binary, userId, sponsor, id).0.nodes, root, ids + [id])
  {
    var r := AddMemberSpec(s, Binary, userId, sponsor, id).1.value;
    MemberAttachable(s, Binary, userId, sponsor, id);
    assert UserOk(s, (Binary, sponsor));
    PlacementFound(s, root);
    var (p, x) := Placement(s.nodes, root);
    NextPlace(s, root, ids, p, x);
    assert s.nodes[p].id == p by { assert NodeOk(s, p); }
    assert r.parent == Some(p) && r.position == Some(x);
    NextMember(s, r, root, ids, p, x);
  }

  lemma OnePlace(s: Store, n: Node, root: NodeId, c: NodeId, j: nat, k: nat)
    requires Inv(s) && Attachable(s, n)
    requires HeapAt(Insert(s, n).nodes, root, c, j) && HeapAt(Insert(s, n).nodes, root, c, k)
    ensures j == k
  {
    InsertKeeps(s, n);
    ShapeLinked(Insert(s, n));
    PlaceUnique(Insert(s, n).nodes, root, c, j, k);
  }

  /** root is a binary root. */
  ghost predicate IsRoot(s: Store, root: NodeId) {
    root in s.nodes && s.nodes[root].tree == Binary && s.nodes[root].parent.None?
  }

  /** Two ancestors of one node are ancestors of each other; a root has none. */
  lemma RootAboveSponsor(nodes: map<NodeId, Node>, root: NodeId, home: NodeId, p: NodeId)
    requires root in nodes && nodes[root].parent.None? && Below(nodes, root, p) && Below(nodes, home, p)
    ensures Below(nodes, root, home)
  {
    var i: nat :| Ancestor(nodes, p, i) == Some(root);
    var j: nat :| Ancestor(nodes, p, j) == Some(home);
    if j <= i {
      AncestorCompose(nodes, p, j, i - j);
    } else {
      AncestorCompose(nodes, p, i, j - i);
    }
  }

  /** An insertion outside the root's tree leaves its places alone. */
  lemma Elsewhere(s: Store, n: Node, root: NodeId, ids: seq<NodeId>)
    requires Inv(s) && Attachable(s, n) && IsRoot(s, root) && LevelOrdered(s.nodes, root, ids)
    requires n.parent.Some? && n.tree == Binary ==> !Below(s.nodes, root, s.byUser[(n.tree, n.sponsor.value)])
    ensures LevelOrdered(Insert(s, n).nodes, root, ids)
  {
    ShapeLinked(s);
    var nodes' := Insert(s, n).nodes;
    forall i | 0 <= i < |ids| ensures HeapAt(nodes', root, ids[i], i + 1) {
      LeafKeepsPlace(s.nodes, n, root, ids[i], i + 1);
    }
    forall c, k: nat | HeapAt(nodes', root, c, k) ensures k <= |ids| {
      if c in s.nodes {
        LeafKeepsPlace(s.nodes, n, root, c, k);
      } else {
        LeafPlace(s.nodes, n, root, k);
        var p := n.parent.value;
        PlaceBelow(s.nodes, root, p, k / 2);
        SameTree(s, root, p, k / 2);
        RootAboveSponsor(s.nodes, root, s.byUser[(n.tree, n.sponsor.value)], p);
        assert false;
      }
    }
  }

  // --------------------------------------------------------- the level-order theorem

  ghost function RunFrom(s: Store, ops: seq<Op>): Store {
    if ops == [] then s else Step(RunFrom(s, ops[..|ops| - 1]), ops[|ops| - 1]).0
  }

  /** The call is sponsored from inside the root's tree. */
  ghost predicate SponsoredInside(s: Store, root: NodeId, op: Op) {
    op.AddMember? && op.tree == Binary && (Binary, op.sponsor) in s.byUser && Below(s.nodes, root, s.byUser[(Binary, op.sponsor)])
  }

  /** Every call sponsored from inside the root's tree names the root itself. */
  ghost predicate OnlyRootSponsors(s: Store, root: NodeId, ops: seq<Op>) {
    ops != [] ==>
      && OnlyRootSponsors(s, root, ops[..|ops| - 1])
      && var before, op := RunFrom(s, ops[..|ops| - 1]), ops[|ops| - 1];
         SponsoredInside(before, root, op) ==> before.byUser[(Binary, op.sponsor)] == root
  }

  /** The ids of the accepted calls sponsored from inside the root's tree, in order. */
  ghost function Joined(s: Store, root: NodeId, ops: seq<Op>): seq<NodeId> {
    if ops == [] then []
    else
      var before, op := RunFrom(s, ops[..|ops| - 1]), ops[|ops| - 1];
      Joined(s, root, ops[..|ops| - 1])
        + if SponsoredInside(before, root, op) && Free(before, Binary, op.userId, op.id) then [op.id] else []
  }

  lemma StepOrder(s: Store, root: NodeId, ids: seq<NodeId>, op: Op)
    requires Inv(s) && ValidId(op.id) && IsRoot(s, root) && LevelOrdered(s.nodes, root, ids) && |ids| >= 1
    requires SponsoredInside(s, root, op) ==> s.byUser[(Binary, op.sponsor)] == root
    ensures var (s', r) := Step(s, op);
      && IsRoot(s', root)
      && LevelOrdered(s'.nodes, root, ids + if SponsoredInside(s, root, op) && Free(s, Binary, op.userId, op.id) then [op.id] else [])
  {
    var (s', r) := Step(s, op);
    if SponsoredInside(s, root, op) {
      AddMemberEffect(s, op.tree, op.userId, op.sponsor, op.id);
    }
    if r.Failure? {
      assert ids + [] == ids;
    } else if SponsoredInside(s, root, op) {
      MemberAttachable(s, op.tree, op.userId, op.sponsor, op.id);
      RootSponsored(s, root, ids, op.userId, op.sponsor, op.id);
    } else {
      if op.CreateRoot? {
        RootAttachable(s, op.tree, op.userId, op.id);
      } else {
        MemberAttachable(s, op.tree, op.userId, op.sponsor, op.id);
        SponsorOf(s, op);
      }
      Elsewhere(s, r.value, root, ids);
      assert ids + [] == ids;
    }
  }

  lemma SponsorOf(s: Store, op: Op)
    requires op.AddMember? && Step(s, op).1.Success?
    ensures Step(s, op).1.value.sponsor == Some(op.sponsor)
  {
  }

  /** Level-order completeness: starting from a binary root without children, and as long as
      every member sponsored inside its tree names the root, the tree is at all times the
      complete one. */
  lemma {:induction false} LevelOrder(s: Store, root: NodeId, ops: seq<Op>)
    requires Inv(s) && ValidIds(ops) && IsRoot(s, root) && OnlyRootSponsors(s, root, ops)
    requires forall c :: c in s.nodes ==> s.nodes[c].parent != Some(root)
    ensures Inv(RunFrom(s, ops)) && IsRoot(RunFrom(s, ops), root)
    ensures LevelOrdered(RunFrom(s, ops).nodes, root, [root] + Joined(s, root, ops))
  {
    if ops == [] {
      forall c, k: nat | HeapAt(s.nodes, root, c, k) ensures k <= 1 {
        Childless(s.nodes, root, c, k);
      }
    } else {
      var before := RunFrom(s, ops[..|ops| - 1]);
      LevelOrder(s, root, ops[..|ops| - 1]);
      StepKeeps(before, ops[|ops| - 1]);
      StepOrder(before, root, [root] + Joined(s, root, ops[..|ops| - 1]), ops[|ops| - 1]);
      var tail := if SponsoredInside(before, root, ops[|ops| - 1]) && Free(before, Binary, ops[|ops| - 1].userId, ops[|ops| - 1].id) then [ops[|ops| - 1].id] else [];
      assert [root] + (Joined(s, root, ops[..|ops| - 1]) + tail) == [root] + Joined(s, root, ops[..|ops| - 1]) + tail;
    }
  }

  /** The nodes below the root are at all times exactly the root and those that joined. */
  lemma JoinedBelow(s: Store, root: NodeId, ops: seq<Op>, c: NodeId)
    requires Inv(s) && ValidIds(ops) && IsRoot(s, root) && OnlyRootSponsors(s, root, ops)
    requires forall i :: i in s.nodes ==> s.nodes[i].parent != Some(root)
    ensures Below(RunFrom(s, ops).nodes, root, c) <==> c in [root] + Joined(s, root, ops)
  {
    LevelOrder(s, root, ops);
    BelowListed(RunFrom(s, ops), root, [root] + Joined(s, root, ops), c);
  }

  lemma {:induction false} Childless(nodes: map<NodeId, Node>, root: NodeId, c: NodeId, k: nat)
    requires HeapAt(nodes, root, c, k) && forall i :: i in nodes ==> nodes[i].parent != Some(root)
    ensures k == 1
    decreases k
  {
    if k > 1 {
      Childless(nodes, root, nodes[c].parent.value, k / 2);
    }
  }

  /** In such a tree the k-th node, counting the root as the first, hangs below node k/2, on
      the left if k is even and on the right if it is odd, at depth floor(log2 k). */
  lemma KthMember(s: Store, root: NodeId, ops: seq<Op>, k: nat)
    requires Inv(s) && ValidIds(ops) && IsRoot(s, root) && OnlyRootSponsors(s, root, ops)
    requires forall c :: c in s.nodes ==> s.nodes[c].parent != Some(root)
    requires 2 <= k <= 1 + |Joined(s, root, ops)|
    ensures var nodes, ids := RunFrom(s, ops).nodes, [root] + Joined(s, root, ops);
      && ids[k - 1] in nodes
      && var n := nodes[ids[k - 1]];
      && n.parent == Some(ids[k / 2 - 1])
      && n.position == Some(if k % 2 == 0 then L else R)
      && Pow2(n.depth) <= k < 2 * Pow2(n.depth)
  {
    LevelOrder(s, root, ops);
    PlaceFacts(RunFrom(s, ops), root, [root] + Joined(s, root, ops), k);
  }

  lemma PlaceFacts(s: Store, root: NodeId, ids: seq<NodeId>, k: nat)
    requires Shape(s) && IsRoot(s, root) && Front(s.nodes, root, ids) && 2 <= k <= |ids|
    ensures ids[k - 1] in s.nodes
    ensures var n := s.nodes[ids[k - 1]];
      && n.parent == Some(ids[k / 2 - 1])
      && n.position == Some(Side(k))
      && Pow2(n.depth) <= k < 2 * Pow2(n.depth)
  {
    assert HeapAt(s.nodes, root, ids[k - 1], k) && HeapAt(s.nodes, root, ids[k / 2 - 1], k / 2);
    OccupantUnique(s, root, s.nodes[ids[k - 1]].parent.value, ids[k / 2 - 1], k / 2);
    ShapeLinked(s);
    HeapDepth(s.nodes, root, ids[k - 1], k);
    assert NodeOk(s, root);
    Log2Floor(k);
  }

  /** A root just created has no children. */
  lemma NewRootChildless(s: Store, userId: UserId, id: NodeId)
    requires Inv(s) && ValidId(id) && Free(s, Binary, userId, id)
    ensures var s' := CreateRootSpec(s, Binary, userId, id).0;
      Inv(s') && IsRoot(s', id) && forall c :: c in s'.nodes ==> s'.nodes[c].parent != Some(id)
  {
    StepKeeps(s, CreateRoot(Binary, userId, id));
    ShapeLinked(s);
  }
}
