/** The organisation service: roots, members placed under a sponsor, and the
    breadth-first search for a free binary slot, on the repository's tables. */
module Organization {
  import opened Wrappers
  import opened OrganizationStore
  import opened OrganizationLaws

  datatype OrganizationError = SponsorNotAssigned | UnknownTree | IntegrityError

  // ---------------------------------------------------------- specification

  /** The first free slot of the subtree, in level order. */
  ghost function Placement(nodes: map<NodeId, Node>, root: NodeId): (NodeId, Slot) {
    if exists p, x :: FirstFreeSlot(nodes, root, p, x) then
      var p, x :| FirstFreeSlot(nodes, root, p, x);
      (p, x)
    else (root, L)
  }

  function CreateRootSpec(s: Store, tree: TreeType, userId: UserId, id: NodeId): (Store, Result<Node, OrganizationError>) {
    var n := RootNode(tree, userId, id);
    if Taken(s, n) then (s, Failure(IntegrityError)) else (CreateNode(s, n), Success(n))
  }

  ghost function AddMemberSpec(s: Store, tree: TreeType, userId: UserId, sponsor: UserId, id: NodeId)
    : (Store, Result<Node, OrganizationError>)
  {
    if (tree, sponsor) !in s.byUser || s.byUser[(tree, sponsor)] !in s.nodes then (s, Failure(SponsorNotAssigned))
    else if tree.Other? then (s, Failure(UnknownTree))
    else
      var home := s.byUser[(tree, sponsor)];
      var (p, position) := if tree == Unilevel then (home, None)
                           else var (q, x) := Placement(s.nodes, home); (q, Some(x));
      if p !in s.nodes then (s, Failure(SponsorNotAssigned))
      else
        var n := MemberNode(s.nodes[p], position, userId, sponsor, id);
        if Taken(s, n) then (s, Failure(IntegrityError)) else (Insert(s, n), Success(n))
  }

  datatype Op =
    | CreateRoot(tree: TreeType, userId: UserId, id: NodeId)
    | AddMember(tree: TreeType, userId: UserId, sponsor: UserId, id: NodeId)

  ghost function Step(s: Store, op: Op): (Store, Result<Node, OrganizationError>) {
    match op
    case CreateRoot(tree, userId, id) => CreateRootSpec(s, tree, userId, id)
    case AddMember(tree, userId, sponsor, id) => AddMemberSpec(s, tree, userId, sponsor, id)
  }

  ghost function Run(ops: seq<Op>): Store {
    if ops == [] then EMPTY else Step(Run(ops[..|ops| - 1]), ops[|ops| - 1]).0
  }

  // ------------------------------------------------------------ preservation

  lemma PlacementFound(s: Store, root: NodeId)
    requires Shape(s) && root in s.nodes
    ensures FirstFreeSlot(s.nodes, root, Placement(s.nodes, root).0, Placement(s.nodes, root).1)
  {
    ShapeLinked(s);
    var p, x, m := FirstFreeExists(s.nodes, root, [root]);
    assert FirstFreeSlot(s.nodes, root, p, x);
  }

  /** Any slot found free first is the placement. */
  lemma PlacementIs(s: Store, root: NodeId, p: NodeId, x: Slot)
    requires Shape(s) && root in s.nodes && FirstFreeSlot(s.nodes, root, p, x)
    ensures Placement(s.nodes, root) == (p, x)
  {
    PlacementFound(s, root);
    var (q, y) := Placement(s.nodes, root);
    var m: nat :| FirstFree(s.nodes, root, p, x, m);
    var l: nat :| FirstFree(s.nodes, root, q, y, l);
    FirstFreeUnique(s, root, p, x, m, q, y, l);
  }

  lemma RootAttachable(s: Store, tree: TreeType, userId: UserId, id: NodeId)
    requires ValidId(id) && !Taken(s, RootNode(tree, userId, id))
    ensures Attachable(s, RootNode(tree, userId, id)) && Insert(s, RootNode(tree, userId, id)) == CreateNode(s, RootNode(tree, userId, id))
  {
  }

  /** A successful call attaches an attachable node. */
  lemma MemberAttachable(s: Store, tree: TreeType, userId: UserId, sponsor: UserId, id: NodeId)
    requires Inv(s) && ValidId(id) && AddMemberSpec(s, tree, userId, sponsor, id).1.Success?
    ensures var (s', r) := AddMemberSpec(s, tree, userId, sponsor, id);
      Attachable(s, r.value) && s' == Insert(s, r.value) && r.value.id == id && r.value.tree == tree && r.value.userId == userId
  {
    var home := s.byUser[(tree, sponsor)];
    var n := AddMemberSpec(s, tree, userId, sponsor, id).1.value;
    assert UserOk(s, (tree, sponsor));
    assert Ancestor(s.nodes, home, 0) == Some(home);
    if tree == Binary {
      PlacementFound(s, home);
      var (p, x) := Placement(s.nodes, home);
      var m: nat :| FirstFree(s.nodes, home, p, x, m);
      PlaceBelow(s.nodes, home, p, m / 2);
      SameTree(s, home, p, m / 2);
      assert NodeOk(s, p);
      forall c | c in s.nodes && s.nodes[c].parent == Some(p) ensures s.nodes[c].position != Some(x) {
        FirstFreeIsFree(s.nodes, home, p, x, m, c);
      }
    } else {
      assert NodeOk(s, home);
    }
  }

  lemma {:induction false} SameTree(s: Store, root: NodeId, c: NodeId, k: nat)
    requires Shape(s) && HeapAt(s.nodes, root, c, k)
    ensures root in s.nodes && s.nodes[c].tree == s.nodes[root].tree
    decreases k
  {
    if k > 1 {
      SameTree(s, root, s.nodes[c].parent.value, k / 2);
      assert NodeOk(s, c);
    }
  }

  /** Every call with a well-formed new id keeps the views in agreement. */
  lemma StepKeeps(s: Store, op: Op)
    requires Inv(s) && ValidId(op.id)
    ensures Inv(Step(s, op).0)
  {
    if Step(s, op).1.Success? {
      match op
      case CreateRoot(tree, userId, id) =>
        RootAttachable(s, tree, userId, id);
        InsertKeeps(s, RootNode(tree, userId, id));
      case AddMember(tree, userId, sponsor, id) =>
        MemberAttachable(s, tree, userId, sponsor, id);
        InsertKeeps(s, AddMemberSpec(s, tree, userId, sponsor, id).1.value);
    }
  }

  lemma EmptyInv()
    ensures Inv(EMPTY)
  {
    assert forall i :: NodeOk(EMPTY, i);
    assert forall row :: RowOk(EMPTY.nodes, EMPTY.closure, row);
    assert forall u :: SpillOk(EMPTY, u);
  }

  lemma {:induction false} RunKeeps(ops: seq<Op>)
    requires forall i :: 0 <= i < |ops| ==> ValidId(ops[i].id)
    ensures Inv(Run(ops))
  {
    if ops == [] {
      EmptyInv();
    } else {
      RunKeeps(ops[..|ops| - 1]);
      StepKeeps(Run(ops[..|ops| - 1]), ops[|ops| - 1]);
    }
  }

  /** The closure table answers reachability: two nodes are related exactly when the
      descendant lies in the ancestor's subtree and in the tree asked for. */
  lemma RelatedIff(s: Store, ancestor: NodeId, descendant: NodeId, tree: TreeType)
    requires Inv(s)
    ensures Related(s.closure, ancestor, descendant, tree)
       <==> Below(s.nodes, ancestor, descendant) && s.nodes[descendant].tree == tree
  {
    if Related(s.closure, ancestor, descendant, tree) {
      var i :| 0 <= i < |s.closure|
        && s.closure[i].ancestor == ancestor && s.closure[i].descendant == descendant && s.closure[i].tree == tree;
      assert RowOk(s.nodes, s.closure, s.closure[i]);
    }
    if Below(s.nodes, ancestor, descendant) && s.nodes[descendant].tree == tree {
      var n: nat :| Ancestor(s.nodes, descendant, n) == Some(ancestor);
      assert RowOk(s.nodes, s.closure, ClosureRow(ancestor, descendant, tree, n));
      var i :| 0 <= i < |s.closure| && s.closure[i] == ClosureRow(ancestor, descendant, tree, n);
    }
  }

  // -------------------------------------------------------------- repository

  class OrganizationRepository {
    var nodes: map<NodeId, Node>
    var byUser: map<UserKey, NodeId>
    var children: map<NodeId, seq<Node>>
    var closure: seq<ClosureRow>
    var slots: map<SlotKey, SlotState>
    var spillovers: seq<Spillover>

    constructor ()
      ensures View() == EMPTY
    {
      nodes, byUser, children, closure, slots, spillovers := map[], map[], map[], [], map[], [];
    }

    ghost function View(): Store
      reads this
    {
      Store(nodes, byUser, children, closure, slots, spillovers)
    }

    method EnsureClosureEntries(n: Node)
      modifies this`closure
      ensures closure == EnsureClosure(old(closure), n)
    {
      if HasRows(closure, n.id, n.tree) {
        return;
      }
      closure := closure + [ClosureRow(n.id, n.id, n.tree, 0)];
      if n.parent.Some? {
        var p, rows := n.parent.value, closure;
        for i := 0 to |rows|
          invariant closure == rows + Lifted(rows[..i], p, n.id, n.tree)
        {
          assert rows[..i + 1][..i] == rows[..i];
          if rows[i].descendant == p && rows[i].tree == n.tree {
            closure := closure + [ClosureRow(rows[i].ancestor, n.id, n.tree, rows[i].depth + 1)];
          }
        }
        assert rows[..|rows|] == rows;
      }
    }

    method EnsureBinarySlots(id: NodeId)
      modifies this`slots
      ensures slots == EnsureSlot(EnsureSlot(old(slots), id, L), id, R)
    {
      if (id, L) !in slots {
        slots := slots[(id, L) := Open];
      }
      if (id, R) !in slots {
        slots := slots[(id, R) := Open];
      }
    }

    method FillBinarySlot(parent: NodeId, x: Slot, child: NodeId)
      modifies this`slots
      ensures slots == old(slots)[(parent, x) := Filled(child)]
    {
      slots := slots[(parent, x) := Filled(child)];
    }

    /** Fails, as the constraints do, on a taken id or a user already in the tree. */
    method Create(n: Node) returns (ok: bool)
      modifies this
      ensures ok == !Taken(old(View()), n)
      ensures View() == if ok then CreateNode(old(View()), n) else old(View())
    {
      if n.id in nodes || (n.tree, n.userId) in byUser {
        return false;
      }
      nodes := nodes[n.id := n];
      byUser := byUser[(n.tree, n.userId) := n.id];
      match n.parent {
        case Some(p) => children := children[p := ChildrenOf(children, p) + [n]];
        case None => children := children[n.id := ChildrenOf(children, n.id)];
      }
      EnsureClosureEntries(n);
      if n.tree == Binary {
        EnsureBinarySlots(n.id);
        if n.parent.Some? && n.position.Some? {
          FillBinarySlot(n.parent.value, n.position.value, n.id);
        }
      }
      ok := true;
    }

    method LogSpillover(e: Spillover)
      modifies this`spillovers
      ensures spillovers == old(spillovers) + [e]
    {
      spillovers := spillovers + [e];
    }

    method IsDescendant(ancestor: NodeId, descendant: NodeId, tree: TreeType) returns (found: bool)
      requires Inv(View())
      ensures found <==> Below(nodes, ancestor, descendant) && nodes[descendant].tree == tree
    {
      found := Related(closure, ancestor, descendant, tree);
      RelatedIff(View(), ancestor, descendant, tree);
    }
  }

  // ------------------------------------------------------------------ service

  class OrganizationService {
    const repository: OrganizationRepository

    constructor (repository: OrganizationRepository)
      ensures this.repository == repository
    {
      this.repository := repository;
    }

    ghost predicate Valid()
      reads this, repository
    {
      Inv(repository.View())
    }

    method CreateRoot(tree: TreeType, userId: UserId, id: NodeId) returns (r: Result<Node, OrganizationError>)
      requires Valid() && ValidId(id)
      modifies repository
      ensures Valid()
      ensures (repository.View(), r) == CreateRootSpec(old(repository.View()), tree, userId, id)
    {
      StepKeeps(repository.View(), Op.CreateRoot(tree, userId, id));
      var n := RootNode(tree, userId, id);
      var ok := repository.Create(n);
      r := if ok then Success(n) else Failure(IntegrityError);
    }

    method AddMember(tree: TreeType, userId: UserId, sponsor: UserId, id: NodeId) returns (r: Result<Node, OrganizationError>)
      requires Valid() && ValidId(id)
      modifies repository
      ensures Valid()
      ensures (repository.View(), r) == AddMemberSpec(old(repository.View()), tree, userId, sponsor, id)
    {
      ghost var s := repository.View();
      StepKeeps(s, Op.AddMember(tree, userId, sponsor, id));
      if (tree, sponsor) !in repository.byUser || repository.byUser[(tree, sponsor)] !in repository.nodes {
        return Failure(SponsorNotAssigned);
      }
      var home := repository.nodes[repository.byUser[(tree, sponsor)]];
      assert NodeOk(s, s.byUser[(tree, sponsor)]) && UserOk(s, (tree, sponsor));
      var parent, position := home, None;
      match tree {
        case Unilevel =>
        case Binary =>
          var x;
          parent, x := LocateBinarySlot(home);
          position := Some(x);
          PlacementIs(s, home.id, parent.id, x);
          ghost var m: nat :| FirstFree(s.nodes, home.id, parent.id, x, m);
          SameTree(s, home.id, parent.id, m / 2);
        case Other(_) =>
          return Failure(UnknownTree);
      }
      var n := MemberNode(parent, position, userId, sponsor, id);
      var ok := repository.Create(n);
      if !ok {
        return Failure(IntegrityError);
      }
      if tree == Binary && parent.id != home.id {
        repository.LogSpillover(LogEntry(n));
      }
      r := Success(n);
    }

    /** The children of a node by their positions; a later child overrides an earlier one. */
    method ChildrenByPosition(id: NodeId) returns (byPosition: map<Option<Slot>, Node>)
      requires Valid()
      ensures Positions(repository.nodes, id, byPosition)
    {
      var list := ChildrenOf(repository.children, id);
      assert ChildrenOk(repository.nodes, repository.children, id);
      byPosition := map[];
      for i := 0 to |list|
        invariant forall key :: key in byPosition ==> byPosition[key] in list && byPosition[key].position == key
        invariant forall j :: 0 <= j < i ==> list[j].position in byPosition
      {
        byPosition := byPosition[list[i].position := list[i]];
      }
    }

    /** Breadth-first search below the sponsor.  The queue always holds the nodes at the
        places k, k+1, ..., 2k-1, so it is never empty and the search never gives up. */
    method LocateBinarySlot(sponsor: Node) returns (parent: Node, position: Slot)
      requires Valid() && sponsor.id in repository.nodes && repository.nodes[sponsor.id] == sponsor
      ensures parent.id in repository.nodes && repository.nodes[parent.id] == parent
      ensures FirstFreeSlot(repository.nodes, sponsor.id, parent.id, position)
    {
      ghost var nodes, root := repository.nodes, sponsor.id;
      var queue := [sponsor];
      ghost var front, k := [root], 1;
      while queue != []
        invariant Searching(nodes, root, queue, front, k)
        decreases |nodes| - k
      {
        SearchFits(repository.View(), root, queue, front, k);
        var candidate := queue[0];
        var children := ChildrenByPosition(candidate.id);
        Probed(repository.View(), root, queue, front, k, children);
        if Some(L) !in children {
          return candidate, L;
        }
        if Some(R) !in children {
          return candidate, R;
        }
        queue := queue[1..];
        queue := queue + [children[Some(L)]];
        queue := queue + [children[Some(R)]];
        front, k := front + [children[Some(L)].id] + [children[Some(R)].id], k + 1;
      }
      assert false;
      parent, position := sponsor, L;
    }
  }

  /** The map gives the children of id by their positions. */
  ghost predicate Positions(nodes: map<NodeId, Node>, id: NodeId, byPosition: map<Option<Slot>, Node>) {
    && (forall x :: Some(x) in byPosition ==>
          var c := byPosition[Some(x)];
          c.id in nodes && c == nodes[c.id] && c.parent == Some(id) && c.position == Some(x))
    && (forall c :: c in nodes && nodes[c].parent == Some(id) ==> nodes[c].position in byPosition)
  }

  /** The search is about to visit place k: front holds the places up to 2k-1, and the queue
      the stored nodes of the last k of them. */
  ghost predicate Searching(nodes: map<NodeId, Node>, root: NodeId, queue: seq<Node>, front: seq<NodeId>, k: nat) {
    k >= 1 && |front| == 2 * k - 1 && |queue| == k && Front(nodes, root, front) && Lined(nodes, queue, front, k)
  }

  lemma SearchFits(s: Store, root: NodeId, queue: seq<Node>, front: seq<NodeId>, k: nat)
    requires Shape(s) && Searching(s.nodes, root, queue, front, k)
    ensures k <= |s.nodes| && queue[0].id in s.nodes && queue[0] == s.nodes[queue[0].id]
  {
    ShapeLinked(s);
    FrontFits(s.nodes, root, front);
  }

  /** One round of the search at place k: a missing child is the first free slot, and with
      both children present the queue moves on to place k+1. */
  lemma Probed(s: Store, root: NodeId, queue: seq<Node>, front: seq<NodeId>, k: nat, children: map<Option<Slot>, Node>)
    requires Shape(s) && Searching(s.nodes, root, queue, front, k)
    requires Positions(s.nodes, queue[0].id, children)
    ensures Some(L) !in children ==> FirstFreeSlot(s.nodes, root, queue[0].id, L)
    ensures Some(L) in children && Some(R) !in children ==> FirstFreeSlot(s.nodes, root, queue[0].id, R)
    ensures Some(L) in children && Some(R) in children ==>
      Searching(s.nodes, root, queue[1..] + [children[Some(L)]] + [children[Some(R)]],
                front + [children[Some(L)].id] + [children[Some(R)].id], k + 1)
  {
    var p := queue[0].id;
    assert p == front[k - 1];
    if Some(L) !in children {
      FreeAt(s, root, p, L, 2 * k, front);
    } else {
      var left := children[Some(L)];
      ChildPlace(s.nodes, root, p, k, left.id, L);
      if Some(R) !in children {
        FreeAt(s, root, p, R, 2 * k + 1, front + [left.id]);
      } else {
        var right := children[Some(R)];
        ChildPlace(s.nodes, root, p, k, right.id, R);
        Pushed(s.nodes, root, queue, front, k, left, right);
      }
    }
  }

  /** The queue holds the stored nodes of the places from k on. */
  ghost predicate Lined(nodes: map<NodeId, Node>, queue: seq<Node>, front: seq<NodeId>, k: nat)
    requires k >= 1 && |front| == 2 * k - 1
  {
    && |queue| == k
    && forall i {:trigger queue[i]} :: 0 <= i < k ==>
         queue[i].id in nodes && queue[i] == nodes[queue[i].id] && queue[i].id == front[k - 1 + i]
  }

  lemma Pushed(nodes: map<NodeId, Node>, root: NodeId, queue: seq<Node>, front: seq<NodeId>, k: nat, left: Node, right: Node)
    requires k >= 1 && |front| == 2 * k - 1 && Lined(nodes, queue, front, k) && Front(nodes, root, front)
    requires HeapAt(nodes, root, left.id, 2 * k) && nodes[left.id] == left
    requires HeapAt(nodes, root, right.id, 2 * k + 1) && nodes[right.id] == right
    ensures Front(nodes, root, front + [left.id] + [right.id])
    ensures Lined(nodes, queue[1..] + [left] + [right], front + [left.id] + [right.id], k + 1)
  {
    var queue', front' := queue[1..] + [left] + [right], front + [left.id] + [right.id];
    forall i | 0 <= i < k + 1
      ensures queue'[i].id in nodes && queue'[i] == nodes[queue'[i].id] && queue'[i].id == front'[k + i]
    {
      if i < k - 1 {
        assert queue'[i] == queue[i + 1] && front'[k + i] == front[k + i];
      }
    }
  }

  /** A missing child right behind a full front is the first free slot. */
  lemma FreeAt(s: Store, root: NodeId, p: NodeId, x: Slot, m: nat, front: seq<NodeId>)
    requires Shape(s) && Front(s.nodes, root, front) && |front| == m - 1 && m >= 2 && x == Side(m)
    requires HeapAt(s.nodes, root, p, m / 2)
    requires forall c :: c in s.nodes && s.nodes[c].parent == Some(p) ==> s.nodes[c].position != Some(x)
    ensures FirstFreeSlot(s.nodes, root, p, x)
  {
    forall c ensures !HeapAt(s.nodes, root, c, m) {
      if HeapAt(s.nodes, root, c, m) {
        OccupantUnique(s, root, s.nodes[c].parent.value, p, m / 2);
      }
    }
    forall j | 1 <= j < m ensures Occupied(s.nodes, root, j) {
      assert HeapAt(s.nodes, root, front[j - 1], j);
    }
    assert FirstFree(s.nodes, root, p, x, m);
  }
}
