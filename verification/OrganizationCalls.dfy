/** Every call of the organisation service in full: when it is accepted, which error it
    raises otherwise, and what it stores.  The children lists, the closure table and the
    slots follow from the nodes, as the invariant says. */
module OrganizationCalls {
  import opened Wrappers
  import opened OrganizationStore
  import opened OrganizationLaws
  import opened Organization

  /** The id is new and the user not yet in the tree. */
  predicate Free(s: Store, tree: TreeType, userId: UserId, id: NodeId) {
    id !in s.nodes && (tree, userId) !in s.byUser
  }

  predicate AcceptsMember(s: Store, tree: TreeType, userId: UserId, sponsor: UserId, id: NodeId) {
    (tree, sponsor) in s.byUser && tree in {Unilevel, Binary} && Free(s, tree, userId, id)
  }

  /** A root is stored in any tree, alone. */
  lemma CreateRootEffect(s: Store, tree: TreeType, userId: UserId, id: NodeId)
    requires Inv(s) && ValidId(id)
    ensures var (s', r) := CreateRootSpec(s, tree, userId, id);
      if Free(s, tree, userId, id) then
        var n := Node(id, userId, tree, None, None, None, 0, "/" + id);
        && r == Success(n) && Inv(s')
        && s'.nodes == s.nodes[id := n] && s'.byUser == s.byUser[(tree, userId) := id] && s'.spillovers == s.spillovers
      else s' == s && r == Failure(IntegrityError)
  {
    StepKeeps(s, CreateRoot(tree, userId, id));
  }

  /** Where a member may be stored: below the sponsor's own node in the unilevel tree, and in
      the binary tree at the first free slot of the sponsor's subtree, in level order. */
  ghost predicate Placed(s: Store, home: NodeId, n: Node) {
    && n.parent.Some? && n.parent.value in s.nodes
    && n.depth == s.nodes[n.parent.value].depth + 1
    && n.path == s.nodes[n.parent.value].path + "/" + n.id
    && match n.tree
       case Unilevel => n.parent == Some(home) && n.position == None
       case Binary => n.position.Some? && FirstFreeSlot(s.nodes, home, n.parent.value, n.position.value)
       case Other(_) => false
  }

  /** What an accepted member call leaves, with its spillover entry if the parent is not the
      sponsor's node. */
  ghost predicate MemberStored(s: Store, s': Store, home: NodeId, n: Node, sponsor: UserId) {
    && n.sponsor == Some(sponsor) && Placed(s, home, n)
    && s'.nodes == s.nodes[n.id := n] && s'.byUser == s.byUser[(n.tree, n.userId) := n.id]
    && s'.spillovers == s.spillovers
         + if n.tree == Binary && n.parent.value != home
           then [Spillover(sponsor, n.userId, n.parent.value, n.position.value)] else []
  }

  lemma AddMemberEffect(s: Store, tree: TreeType, userId: UserId, sponsor: UserId, id: NodeId)
    requires Inv(s) && ValidId(id)
    ensures var (s', r) := AddMemberSpec(s, tree, userId, sponsor, id);
      if AcceptsMember(s, tree, userId, sponsor, id) then
        && r.Success? && r.value.id == id && r.value.userId == userId && r.value.tree == tree
        && MemberStored(s, s', s.byUser[(tree, sponsor)], r.value, sponsor) && Inv(s')
      else
        && s' == s
        && r == Failure(if (tree, sponsor) !in s.byUser then SponsorNotAssigned
                        else if tree !in {Unilevel, Binary} then UnknownTree
                        else IntegrityError)
  {
    assert UserOk(s, (tree, sponsor));
    if (tree, sponsor) in s.byUser && tree in {Unilevel, Binary} {
      StepKeeps(s, AddMember(tree, userId, sponsor, id));
      var home := s.byUser[(tree, sponsor)];
      assert NodeOk(s, home);
      if tree == Binary {
        PlacementFound(s, home);
        var (p, x) := Placement(s.nodes, home);
        PlaceStored(s, home, p, x);
        if Free(s, tree, userId, id) {
          InsertStored(s, MemberNode(s.nodes[p], Some(x), userId, sponsor, id), home, sponsor);
        }
      } else if Free(s, tree, userId, id) {
        InsertStored(s, MemberNode(s.nodes[home], None, userId, sponsor, id), home, sponsor);
      }
    }
  }

  lemma PlaceStored(s: Store, home: NodeId, p: NodeId, x: Slot)
    requires Inv(s) && FirstFreeSlot(s.nodes, home, p, x)
    ensures p in s.nodes && s.nodes[p].id == p && home in s.nodes && s.nodes[p].tree == s.nodes[home].tree
  {
    var m: nat :| FirstFree(s.nodes, home, p, x, m);
    SameTree(s, home, p, m / 2);
    assert NodeOk(s, p);
  }

  lemma InsertStored(s: Store, n: Node, home: NodeId, sponsor: UserId)
    requires n.id !in s.nodes && n.sponsor == Some(sponsor) && Placed(s, home, n)
    requires (n.tree, sponsor) in s.byUser && s.byUser[(n.tree, sponsor)] == home && (n.tree, n.userId) !in s.byUser
    ensures MemberStored(s, Insert(s, n), home, n, sponsor)
  {
  }
}
