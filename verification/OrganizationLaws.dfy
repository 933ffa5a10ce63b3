/** Laws of the organisation store: attaching a leaf keeps every redundant view in
    agreement with the parent links, and places in level order are unique. */
module OrganizationLaws {
  import opened Wrappers
  import opened OrganizationStore

  // ---------------------------------------------------------------- parent links

  /** Parents are stored and one level up. */
  ghost predicate Linked(nodes: map<NodeId, Node>) {
    forall i :: i in nodes && nodes[i].parent.Some? ==>
      nodes[i].parent.value in nodes && nodes[i].depth == nodes[nodes[i].parent.value].depth + 1
  }

  lemma ShapeLinked(s: Store)
    requires Shape(s)
    ensures Linked(s.nodes)
  {
    forall i | i in s.nodes && s.nodes[i].parent.Some?
      ensures s.nodes[i].parent.value in s.nodes && s.nodes[i].depth == s.nodes[s.nodes[i].parent.value].depth + 1
    {
      assert NodeOk(s, i);
    }
  }

  /** A new leaf changes no ancestor of an older node. */
  lemma {:induction false} LeafKeepsAncestors(nodes: map<NodeId, Node>, n: Node, d: NodeId, k: nat)
    requires Linked(nodes) && n.id !in nodes && d in nodes
    ensures Ancestor(nodes[n.id := n], d, k) == Ancestor(nodes, d, k)
    decreases k
  {
    if k > 0 && nodes[d].parent.Some? {
      LeafKeepsAncestors(nodes, n, nodes[d].parent.value, k - 1);
    }
  }

  /** The ancestors of the leaf are itself and its parent's, one step further. */
  lemma LeafAncestors(nodes: map<NodeId, Node>, n: Node, k: nat)
    requires Linked(nodes) && n.id !in nodes && (n.parent.Some? ==> n.parent.value in nodes)
    ensures Ancestor(nodes[n.id := n], n.id, k) ==
      if k == 0 then Some(n.id) else if n.parent.None? then None else Ancestor(nodes, n.parent.value, k - 1)
  {
    if k > 0 && n.parent.Some? {
      LeafKeepsAncestors(nodes, n, n.parent.value, k - 1);
    }
  }

  /** Ancestors are stored, and each step up lowers the depth by one. */
  lemma {:induction false} AncestorDepth(nodes: map<NodeId, Node>, d: NodeId, k: nat)
    requires Linked(nodes)
    ensures var a := Ancestor(nodes, d, k);
      a.Some? ==> d in nodes && a.value in nodes && nodes[d].depth == nodes[a.value].depth + k
    decreases k
  {
    if k > 0 && d in nodes && nodes[d].parent.Some? {
      AncestorDepth(nodes, nodes[d].parent.value, k - 1);
    }
  }

  lemma {:induction false} AncestorCompose(nodes: map<NodeId, Node>, d: NodeId, j: nat, k: nat)
    requires Ancestor(nodes, d, j).Some?
    ensures Ancestor(nodes, d, j + k) == Ancestor(nodes, Ancestor(nodes, d, j).value, k)
    decreases j
  {
    if j > 0 {
      AncestorCompose(nodes, nodes[d].parent.value, j - 1, k);
    }
  }

  lemma LeafKeepsBelow(nodes: map<NodeId, Node>, n: Node, a: NodeId, d: NodeId)
    requires Linked(nodes) && n.id !in nodes && Below(nodes, a, d)
    ensures Below(nodes[n.id := n], a, d)
  {
    var k: nat :| Ancestor(nodes, d, k) == Some(a);
    AncestorDepth(nodes, d, k);
    LeafKeepsAncestors(nodes, n, d, k);
  }

  // ---------------------------------------------------------- attaching a leaf

  /** Node n may be inserted: it is new, consistent with its parent, its slot is free and
      its parent lies in the subtree of its sponsor. */
  ghost predicate Attachable(s: Store, n: Node) {
    && !Taken(s, n) && ValidId(n.id)
    && match n.parent
       case None => n.position == None && n.depth == 0 && n.path == "/" + n.id
       case Some(p) =>
         && p in s.nodes && s.nodes[p].tree == n.tree
         && n.depth == s.nodes[p].depth + 1 && n.path == s.nodes[p].path + "/" + n.id
         && (n.position.Some? <==> n.tree == Binary)
         && n.sponsor.Some? && (n.tree, n.sponsor.value) in s.byUser
         && Below(s.nodes, s.byUser[(n.tree, n.sponsor.value)], p)
         && (n.position.Some? ==>
               forall c :: c in s.nodes && s.nodes[c].parent == Some(p) ==> s.nodes[c].position != n.position)
  }

  lemma AttachNodes(s: Store, n: Node, i: NodeId)
    requires Shape(s) && Attachable(s, n)
    ensures NodeOk(CreateNode(s, n), i)
  {
    ShapeLinked(s);
    assert NodeOk(s, i);
    var s' := CreateNode(s, n);
    if i in s'.nodes && s'.nodes[i].parent.Some? {
      var m := s'.nodes[i];
      assert (m.tree, m.sponsor.value) in s.byUser;
      assert UserOk(s, (m.tree, m.sponsor.value));
      LeafKeepsBelow(s.nodes, n, s.byUser[(m.tree, m.sponsor.value)], m.parent.value);
    }
  }

  lemma AttachUsers(s: Store, n: Node, key: UserKey)
    requires UserOk(s, key) && Attachable(s, n)
    ensures UserOk(CreateNode(s, n), key)
  {
  }

  lemma AttachSlotUnique(nodes: map<NodeId, Node>, n: Node, a: NodeId, b: NodeId)
    requires SlotUnique(nodes, a, b) && n.id !in nodes
    requires n.parent.Some? && n.position.Some? ==>
      forall c :: c in nodes && nodes[c].parent == n.parent ==> nodes[c].position != n.position
    ensures SlotUnique(nodes[n.id := n], a, b)
  {
  }

  lemma AttachChildren(s: Store, n: Node, p: NodeId)
    requires Shape(s) && Attachable(s, n)
    ensures ChildrenOk(CreateNode(s, n).nodes, CreateNode(s, n).children, p)
  {
    ShapeLinked(s);
    assert ChildrenOk(s.nodes, s.children, p);
    var s' := CreateNode(s, n);
    var was, now := ChildrenOf(s.children, p), ChildrenOf(s'.children, p);
    if n.parent == Some(p) {
      assert now == was + [n];
      forall c | c in s'.nodes && s'.nodes[c].parent == Some(p) ensures s'.nodes[c] in now {
        assert c != n.id ==> s.nodes[c] in was;
        assert c == n.id ==> now[|was|] == n;
      }
    } else {
      assert now == was;
    }
  }

  lemma AttachShape(s: Store, n: Node)
    requires Shape(s) && Attachable(s, n)
    ensures Shape(CreateNode(s, n))
  {
    var s' := CreateNode(s, n);
    forall i ensures NodeOk(s', i) {
      AttachNodes(s, n, i);
    }
    forall key ensures UserOk(s', key) {
      assert UserOk(s, key);
      AttachUsers(s, n, key);
    }
    forall a, b ensures SlotUnique(s'.nodes, a, b) {
      assert SlotUnique(s.nodes, a, b);
      AttachSlotUnique(s.nodes, n, a, b);
    }
    forall p ensures ChildrenOk(s'.nodes, s'.children, p) {
      AttachChildren(s, n, p);
    }
  }

  // -------------------------------------------------------------- closure table

  lemma {:induction false} LiftedRows(closure: seq<ClosureRow>, p: NodeId, id: NodeId, tree: TreeType, row: ClosureRow)
    ensures row in Lifted(closure, p, id, tree) <==>
      row.descendant == id && row.tree == tree && row.depth >= 1 && ClosureRow(row.ancestor, p, tree, row.depth - 1) in closure
  {
    if closure != [] {
      LiftedRows(closure[..|closure| - 1], p, id, tree, row);
      assert closure == closure[..|closure| - 1] + [closure[|closure| - 1]];
    }
  }

  lemma {:induction false} LiftedDistinct(closure: seq<ClosureRow>, p: NodeId, id: NodeId, tree: TreeType)
    requires RowsDistinct(closure)
    ensures RowsDistinct(Lifted(closure, p, id, tree))
  {
    if closure != [] {
      var init, last := closure[..|closure| - 1], closure[|closure| - 1];
      LiftedDistinct(init, p, id, tree);
      var row := ClosureRow(last.ancestor, id, tree, last.depth + 1);
      LiftedRows(init, p, id, tree, row);
      assert last !in init;
    }
  }

  lemma NoRowsOfNew(s: Store, id: NodeId, row: ClosureRow)
    requires Inv(s) && id !in s.nodes && (row.descendant == id || row.ancestor == id)
    ensures row !in s.closure
  {
    ShapeLinked(s);
    assert RowOk(s.nodes, s.closure, row);
    AncestorDepth(s.nodes, row.descendant, row.depth);
  }

  /** The rows after an insertion: those before, the node's own, and its parent's lifted. */
  lemma ClosureAfter(s: Store, n: Node, row: ClosureRow)
    requires Inv(s) && Attachable(s, n)
    ensures row in EnsureClosure(s.closure, n) <==>
      || row in s.closure
      || row == ClosureRow(n.id, n.id, n.tree, 0)
      || (n.parent.Some? && row.descendant == n.id && row.tree == n.tree && row.depth >= 1
          && ClosureRow(row.ancestor, n.parent.value, n.tree, row.depth - 1) in s.closure)
  {
    forall i | 0 <= i < |s.closure| ensures s.closure[i].descendant != n.id {
      if s.closure[i].descendant == n.id {
        NoRowsOfNew(s, n.id, s.closure[i]);
      }
    }
    if n.parent.Some? {
      var own := s.closure + [ClosureRow(n.id, n.id, n.tree, 0)];
      LiftedRows(own, n.parent.value, n.id, n.tree, row);
      assert n.parent.value != n.id;
    }
  }

  lemma AttachRow(s: Store, n: Node, row: ClosureRow)
    requires Inv(s) && Attachable(s, n)
    ensures RowOk(CreateNode(s, n).nodes, CreateNode(s, n).closure, row)
  {
    ShapeLinked(s);
    ClosureAfter(s, n, row);
    assert RowOk(s.nodes, s.closure, row);
    if row.descendant == n.id {
      LeafAncestors(s.nodes, n, row.depth);
      NoRowsOfNew(s, n.id, row);
      if n.parent.Some? && row.depth >= 1 {
        assert RowOk(s.nodes, s.closure, ClosureRow(row.ancestor, n.parent.value, n.tree, row.depth - 1));
      }
    } else if row.descendant in s.nodes {
      LeafKeepsAncestors(s.nodes, n, row.descendant, row.depth);
    }
  }

  lemma AttachRowsDistinct(s: Store, n: Node)
    requires Inv(s) && Attachable(s, n)
    ensures RowsDistinct(EnsureClosure(s.closure, n))
  {
    var self := ClosureRow(n.id, n.id, n.tree, 0);
    NoRowsOfNew(s, n.id, self);
    var own := s.closure + [self];
    assert RowsDistinct(own);
    if n.parent.Some? {
      var lifted := Lifted(own, n.parent.value, n.id, n.tree);
      LiftedDistinct(own, n.parent.value, n.id, n.tree);
      forall i, j | 0 <= i < |own| && 0 <= j < |lifted| ensures own[i] != lifted[j] {
        LiftedRows(own, n.parent.value, n.id, n.tree, lifted[j]);
        if i < |s.closure| && own[i] == lifted[j] {
          NoRowsOfNew(s, n.id, own[i]);
        }
      }
    }
  }

  // -------------------------------------------------------------------- slots

  lemma AttachSlot(nodes: map<NodeId, Node>, slots: map<SlotKey, SlotState>, n: Node, p: NodeId, x: Slot)
    requires Linked(nodes) && n.id !in nodes && n.parent != Some(n.id)
    requires SlotOk(nodes, slots, p, x) && SlotOk(nodes, slots, n.id, L) && SlotOk(nodes, slots, n.id, R)
    requires n.parent.Some? ==> n.parent.value in nodes && nodes[n.parent.value].tree == n.tree
    requires n.tree == Binary && n.parent.Some? ==>
      n.position.Some? && forall c :: c in nodes && nodes[c].parent == n.parent ==> nodes[c].position != n.position
    ensures SlotOk(nodes[n.id := n], EnsureSlots(slots, n), p, x)
  {
    var nodes', slots' := nodes[n.id := n], EnsureSlots(slots, n);
    if p == n.id && n.tree == Binary {
      assert slots'[(p, x)] == Open;
      assert forall c :: c in nodes' ==> nodes'[c].parent != Some(p);
    } else if n.tree == Binary && n.parent == Some(p) && n.position == Some(x) {
      assert slots'[(p, x)] == Filled(n.id);
    } else if (p, x) in slots {
      assert slots'[(p, x)] == slots[(p, x)];
    }
  }

  // ---------------------------------------------------------- spillover log

  lemma LogAppended(spillovers: seq<Spillover>, e: Spillover, u: UserId)
    ensures LogsOf(spillovers + [e], u) == LogsOf(spillovers, u) + if e.member == u then [e] else []
  {
    assert (spillovers + [e])[..|spillovers + [e]| - 1] == spillovers;
  }

  /** Inserting a node and logging it if it spilled over. */
  function Insert(s: Store, n: Node): Store {
    var s' := CreateNode(s, n);
    if Spilled(s, n) then s'.(spillovers := s.spillovers + [LogEntry(n)]) else s'
  }

  /** An insertion changes nothing about whether an older member spilled over. */
  lemma SpilledStays(s: Store, n: Node, i: NodeId)
    requires NodeOk(s, i) && i in s.nodes && !Taken(s, n)
    ensures Spilled(Insert(s, n), s.nodes[i]) <==> Spilled(s, s.nodes[i])
  {
  }

  lemma AttachSpill(s: Store, n: Node, u: UserId)
    requires SpillOk(s, u) && UserOk(s, (Binary, u)) && !Taken(s, n)
    requires (Binary, u) in s.byUser ==> NodeOk(s, s.byUser[(Binary, u)])
    requires n.tree == Binary && n.parent.Some? ==> n.position.Some? && n.sponsor.Some? && (Binary, n.sponsor.value) in s.byUser
    ensures SpillOk(Insert(s, n), u)
  {
    if Spilled(s, n) {
      LogAppended(s.spillovers, LogEntry(n), u);
    }
    if (Binary, u) == (n.tree, n.userId) {
      assert Insert(s, n).byUser[(Binary, u)] == n.id;
      assert Spilled(Insert(s, n), n) <==> Spilled(s, n);
    } else if (Binary, u) in s.byUser {
      SpilledStays(s, n, s.byUser[(Binary, u)]);
    }
  }

  /** Inserting an attachable node keeps every view in agreement. */
  lemma InsertKeeps(s: Store, n: Node)
    requires Inv(s) && Attachable(s, n)
    ensures Inv(Insert(s, n))
  {
    var s1, s' := CreateNode(s, n), Insert(s, n);
    ShapeLinked(s);
    AttachShape(s, n);
    forall i ensures NodeOk(s', i) {
      assert NodeOk(s1, i);
    }
    forall key ensures UserOk(s', key) {
      assert UserOk(s1, key);
    }
    RowsKept(s, n);
    AttachRowsDistinct(s, n);
    SlotsKept(s, n);
    SpilloversKept(s, n);
  }

  lemma RowsKept(s: Store, n: Node)
    requires Inv(s) && Attachable(s, n)
    ensures forall row {:trigger RowOk(Insert(s, n).nodes, Insert(s, n).closure, row)} :: RowOk(Insert(s, n).nodes, Insert(s, n).closure, row)
  {
    ShapeLinked(s);
    forall row ensures RowOk(Insert(s, n).nodes, Insert(s, n).closure, row) {
      AttachRow(s, n, row);
    }
  }

  lemma SlotsKept(s: Store, n: Node)
    requires Inv(s) && Attachable(s, n)
    ensures forall p, x {:trigger SlotOk(Insert(s, n).nodes, Insert(s, n).slots, p, x)} :: SlotOk(Insert(s, n).nodes, Insert(s, n).slots, p, x)
  {
    ShapeLinked(s);
    forall p, x ensures SlotOk(Insert(s, n).nodes, Insert(s, n).slots, p, x) {
      assert SlotOk(s.nodes, s.slots, p, x) && SlotOk(s.nodes, s.slots, n.id, L) && SlotOk(s.nodes, s.slots, n.id, R);
      AttachSlot(s.nodes, s.slots, n, p, x);
    }
  }

  lemma SpilloversKept(s: Store, n: Node)
    requires Inv(s) && Attachable(s, n)
    ensures forall u {:trigger SpillOk(Insert(s, n), u)} :: SpillOk(Insert(s, n), u)
  {
    forall u ensures SpillOk(Insert(s, n), u) {
      assert SpillOk(s, u) && UserOk(s, (Binary, u));
      if (Binary, u) in s.byUser {
        assert NodeOk(s, s.byUser[(Binary, u)]);
      }
      AttachSpill(s, n, u);
    }
  }

  // --------------------------------------------------------- places in level order

  function Log2(k: nat): nat
    requires k >= 1
  {
    if k == 1 then 0 else 1 + Log2(k / 2)
  }

  function Pow2(e: nat): nat {
    if e == 0 then 1 else 2 * Pow2(e - 1)
  }

  /** Log2 is the floor of the binary logarithm. */
  lemma {:induction false} Log2Floor(k: nat)
    requires k >= 1
    ensures Pow2(Log2(k)) <= k < 2 * Pow2(Log2(k))
  {
    if k > 1 {
      Log2Floor(k / 2);
    }
  }

  /** The children of place k are the places 2k and 2k+1. */
  lemma ChildPlace(nodes: map<NodeId, Node>, root: NodeId, p: NodeId, k: nat, c: NodeId, x: Slot)
    requires HeapAt(nodes, root, p, k) && c in nodes
    requires nodes[c].parent == Some(p) && nodes[c].position == Some(x)
    ensures HeapAt(nodes, root, c, 2 * k + if x == L then 0 else 1)
  {
  }

  lemma {:induction false} HeapDepth(nodes: map<NodeId, Node>, root: NodeId, c: NodeId, k: nat)
    requires Linked(nodes) && HeapAt(nodes, root, c, k)
    ensures root in nodes && nodes[c].depth == nodes[root].depth + Log2(k)
    decreases k
  {
    if k > 1 {
      HeapDepth(nodes, root, nodes[c].parent.value, k / 2);
    }
  }

  /** A node has one place below root. */
  lemma {:induction false} PlaceUnique(nodes: map<NodeId, Node>, root: NodeId, c: NodeId, j: nat, k: nat)
    requires Linked(nodes) && HeapAt(nodes, root, c, j) && HeapAt(nodes, root, c, k)
    ensures j == k
    decreases j
  {
    HeapDepth(nodes, root, c, j);
    HeapDepth(nodes, root, c, k);
    if j > 1 && k > 1 {
      PlaceUnique(nodes, root, nodes[c].parent.value, j / 2, k / 2);
    }
  }

  /** A place has one node. */
  lemma {:induction false} OccupantUnique(s: Store, root: NodeId, a: NodeId, b: NodeId, k: nat)
    requires Shape(s) && HeapAt(s.nodes, root, a, k) && HeapAt(s.nodes, root, b, k)
    ensures a == b
    decreases k
  {
    if k > 1 {
      OccupantUnique(s, root, s.nodes[a].parent.value, s.nodes[b].parent.value, k / 2);
      assert SlotUnique(s.nodes, a, b);
    }
  }

  lemma {:induction false} LeafKeepsPlace(nodes: map<NodeId, Node>, n: Node, root: NodeId, c: NodeId, k: nat)
    requires Linked(nodes) && n.id !in nodes && c in nodes && root in nodes
    ensures HeapAt(nodes[n.id := n], root, c, k) <==> HeapAt(nodes, root, c, k)
    decreases k
  {
    if k > 1 && nodes[c].parent.Some? {
      LeafKeepsPlace(nodes, n, root, nodes[c].parent.value, k / 2);
    }
  }

  /** The place of the new leaf is the place of its slot. */
  lemma LeafPlace(nodes: map<NodeId, Node>, n: Node, root: NodeId, k: nat)
    requires Linked(nodes) && n.id !in nodes && root in nodes && (n.parent.Some? ==> n.parent.value in nodes)
    ensures HeapAt(nodes[n.id := n], root, n.id, k) <==>
      k >= 2 && n.position == Some(Side(k)) && n.parent.Some? && HeapAt(nodes, root, n.parent.value, k / 2)
  {
    if k > 1 && n.parent.Some? {
      LeafKeepsPlace(nodes, n, root, n.parent.value, k / 2);
    }
  }

  lemma {:induction false} DistinctFits(ids: seq<NodeId>, keys: set<NodeId>)
    requires forall i :: 0 <= i < |ids| ==> ids[i] in keys
    requires forall i, j :: 0 <= i < j < |ids| ==> ids[i] != ids[j]
    ensures |ids| <= |keys|
  {
    if ids != [] {
      var last := ids[|ids| - 1];
      DistinctFits(ids[..|ids| - 1], keys - {last});
    }
  }

  /** front lists the nodes at the places 1, 2, ... below root. */
  ghost predicate Front(nodes: map<NodeId, Node>, root: NodeId, front: seq<NodeId>) {
    forall i {:trigger front[i]} :: 0 <= i < |front| ==> HeapAt(nodes, root, front[i], i + 1)
  }

  lemma FrontFits(nodes: map<NodeId, Node>, root: NodeId, front: seq<NodeId>)
    requires Linked(nodes) && Front(nodes, root, front)
    ensures |front| <= |nodes|
  {
    forall i, j | 0 <= i < j < |front| ensures front[i] != front[j] {
      if front[i] == front[j] {
        PlaceUnique(nodes, root, front[i], i + 1, j + 1);
      }
    }
    DistinctFits(front, nodes.Keys);
  }

  /** Every subtree has a first free slot. */
  lemma {:induction false} FirstFreeExists(nodes: map<NodeId, Node>, root: NodeId, front: seq<NodeId>)
    returns (p: NodeId, x: Slot, m: nat)
    requires Linked(nodes) && Front(nodes, root, front) && |front| >= 1
    ensures FirstFree(nodes, root, p, x, m)
    decreases |nodes| - |front|
  {
    FrontFits(nodes, root, front);
    m := |front| + 1;
    if Occupied(nodes, root, m) {
      var c :| HeapAt(nodes, root, c, m);
      FrontFits(nodes, root, front + [c]);
      p, x, m := FirstFreeExists(nodes, root, front + [c]);
    } else {
      p, x := front[m / 2 - 1], Side(m);
      forall j | 1 <= j < m ensures Occupied(nodes, root, j) {
        assert HeapAt(nodes, root, front[j - 1], j);
      }
    }
  }

  /** ... and only one. */
  lemma FirstFreeUnique(s: Store, root: NodeId, p: NodeId, x: Slot, m: nat, q: NodeId, y: Slot, l: nat)
    requires Shape(s) && FirstFree(s.nodes, root, p, x, m) && FirstFree(s.nodes, root, q, y, l)
    ensures m == l && p == q && x == y
  {
    assert m < l ==> Occupied(s.nodes, root, m);
    assert l < m ==> Occupied(s.nodes, root, l);
    OccupantUnique(s, root, p, q, m / 2);
  }

  /** The first free slot is free: no child holds it. */
  lemma FirstFreeIsFree(nodes: map<NodeId, Node>, root: NodeId, p: NodeId, x: Slot, m: nat, c: NodeId)
    requires FirstFree(nodes, root, p, x, m) && c in nodes && nodes[c].parent == Some(p)
    ensures nodes[c].position != Some(x)
  {
    assert HeapAt(nodes, root, c, m) <==> nodes[c].position == Some(x);
  }

  /** A place below root is below root by parent links. */
  lemma {:induction false} PlaceBelow(nodes: map<NodeId, Node>, root: NodeId, c: NodeId, k: nat)
    requires HeapAt(nodes, root, c, k)
    ensures Ancestor(nodes, c, Log2(k)) == Some(root)
    decreases k
  {
    if k > 1 {
      PlaceBelow(nodes, root, nodes[c].parent.value, k / 2);
    }
  }
}
