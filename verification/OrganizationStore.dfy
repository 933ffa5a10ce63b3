/** The organisation store: nodes of unilevel and binary trees together with the views
    written redundantly on every insertion - the user index, the children lists, the
    closure table, the binary slots and the spillover log - and what inserting one node
    does to each of them.

    Ancestor and HeapAt give the views their meaning, by parent links alone. */
module OrganizationStore {
  import opened Wrappers

  type NodeId = string
  type UserId = string

  datatype TreeType = Unilevel | Binary | Other(name: string)

  datatype Slot = L | R

  datatype Node = Node(id: NodeId, userId: UserId, tree: TreeType, parent: Option<NodeId>, sponsor: Option<UserId>,
                       position: Option<Slot>, depth: nat, path: string)

  datatype ClosureRow = ClosureRow(ancestor: NodeId, descendant: NodeId, tree: TreeType, depth: nat)

  datatype SlotState = Open | Filled(child: NodeId)

  datatype Spillover = Spillover(sponsor: UserId, member: UserId, parent: NodeId, position: Slot)

  type UserKey = (TreeType, UserId)
  type SlotKey = (NodeId, Slot)

  datatype Store = Store(
    nodes: map<NodeId, Node>,
    byUser: map<UserKey, NodeId>,
    children: map<NodeId, seq<Node>>,
    closure: seq<ClosureRow>,
    slots: map<SlotKey, SlotState>,
    spillovers: seq<Spillover>)

  const EMPTY := Store(map[], map[], map[], [], map[], [])

  /** Ids the id factory may return: non-empty and without the path separator. */
  predicate ValidId(id: NodeId) { id != "" && '/' !in id }

  // --------------------------------------------------------------- insertion

  function ChildrenOf(children: map<NodeId, seq<Node>>, p: NodeId): seq<Node> {
    if p in children then children[p] else []
  }

  function AddChild(children: map<NodeId, seq<Node>>, n: Node): map<NodeId, seq<Node>> {
    match n.parent
    case Some(p) => children[p := ChildrenOf(children, p) + [n]]
    case None => children[n.id := ChildrenOf(children, n.id)]
  }

  /** The rows of the parent's ancestors, lifted to the new descendant. */
  function Lifted(closure: seq<ClosureRow>, parent: NodeId, id: NodeId, tree: TreeType): seq<ClosureRow> {
    if closure == [] then []
    else
      var last := closure[|closure| - 1];
      Lifted(closure[..|closure| - 1], parent, id, tree)
        + if last.descendant == parent && last.tree == tree then [ClosureRow(last.ancestor, id, tree, last.depth + 1)] else []
  }

  predicate HasRows(closure: seq<ClosureRow>, id: NodeId, tree: TreeType) {
    exists i :: 0 <= i < |closure| && closure[i].descendant == id && closure[i].tree == tree
  }

  /** The closure table relates the two nodes in that tree. */
  predicate Related(closure: seq<ClosureRow>, ancestor: NodeId, descendant: NodeId, tree: TreeType) {
    exists i :: 0 <= i < |closure|
      && closure[i].ancestor == ancestor && closure[i].descendant == descendant && closure[i].tree == tree
  }

  function EnsureClosure(closure: seq<ClosureRow>, n: Node): seq<ClosureRow> {
    if HasRows(closure, n.id, n.tree) then closure
    else
      var own := closure + [ClosureRow(n.id, n.id, n.tree, 0)];
      match n.parent
      case None => own
      case Some(p) => own + Lifted(own, p, n.id, n.tree)
  }

  function EnsureSlot(slots: map<SlotKey, SlotState>, id: NodeId, x: Slot): map<SlotKey, SlotState> {
    if (id, x) in slots then slots else slots[(id, x) := Open]
  }

  function EnsureSlots(slots: map<SlotKey, SlotState>, n: Node): map<SlotKey, SlotState> {
    if n.tree != Binary then slots
    else
      var open := EnsureSlot(EnsureSlot(slots, n.id, L), n.id, R);
      if n.parent.Some? && n.position.Some? then open[(n.parent.value, n.position.value) := Filled(n.id)] else open
  }

  /** The primary key and the unique (tree, user) constraint. */
  predicate Taken(s: Store, n: Node) { n.id in s.nodes || (n.tree, n.userId) in s.byUser }

  function CreateNode(s: Store, n: Node): Store {
    s.(nodes := s.nodes[n.id := n],
       byUser := s.byUser[(n.tree, n.userId) := n.id],
       children := AddChild(s.children, n),
       closure := EnsureClosure(s.closure, n),
       slots := EnsureSlots(s.slots, n))
  }

  function RootNode(tree: TreeType, userId: UserId, id: NodeId): Node {
    Node(id, userId, tree, None, None, None, 0, "/" + id)
  }

  function MemberNode(parent: Node, position: Option<Slot>, userId: UserId, sponsor: UserId, id: NodeId): Node {
    Node(id, userId, parent.tree, Some(parent.id), Some(sponsor), position, parent.depth + 1, parent.path + "/" + id)
  }

  // ------------------------------------------------------ meaning of the links

  /** The n-th node up the parent links from d. */
  function Ancestor(nodes: map<NodeId, Node>, d: NodeId, n: nat): Option<NodeId>
    decreases n
  {
    if d !in nodes then None
    else if n == 0 then Some(d)
    else
      match nodes[d].parent
      case None => None
      case Some(p) => Ancestor(nodes, p, n - 1)
  }

  /** d lies in the subtree of a, a itself included. */
  ghost predicate Below(nodes: map<NodeId, Node>, a: NodeId, d: NodeId) {
    exists n: nat :: Ancestor(nodes, d, n) == Some(a)
  }

  function Side(k: nat): Slot { if k % 2 == 0 then L else R }

  /** c is the k-th node of the complete binary tree below root, counted in level order
      from 1: the node at k has its children at 2k (left) and 2k+1 (right). */
  predicate HeapAt(nodes: map<NodeId, Node>, root: NodeId, c: NodeId, k: nat)
    decreases k
  {
    && k >= 1 && c in nodes
    && if k == 1 then c == root
       else nodes[c].position == Some(Side(k)) && nodes[c].parent.Some? && HeapAt(nodes, root, nodes[c].parent.value, k / 2)
  }

  ghost predicate Occupied(nodes: map<NodeId, Node>, root: NodeId, k: nat) {
    exists c :: HeapAt(nodes, root, c, k)
  }

  /** Slot x of p is place m in level order below root, it is free, and no earlier place is. */
  ghost predicate FirstFree(nodes: map<NodeId, Node>, root: NodeId, p: NodeId, x: Slot, m: nat) {
    && m >= 2 && x == Side(m) && HeapAt(nodes, root, p, m / 2)
    && !Occupied(nodes, root, m)
    && forall j {:trigger Occupied(nodes, root, j)} :: 1 <= j < m ==> Occupied(nodes, root, j)
  }

  ghost predicate FirstFreeSlot(nodes: map<NodeId, Node>, root: NodeId, p: NodeId, x: Slot) {
    exists m: nat :: FirstFree(nodes, root, p, x, m)
  }

  // -------------------------------------------------------------- invariants

  ghost predicate NodeOk(s: Store, i: NodeId) {
    i in s.nodes ==>
      var n := s.nodes[i];
      && n.id == i && ValidId(i)
      && (n.tree, n.userId) in s.byUser && s.byUser[(n.tree, n.userId)] == i
      && match n.parent
         case None => n.position == None && n.depth == 0 && n.path == "/" + i
         case Some(p) =>
           && p in s.nodes && s.nodes[p].tree == n.tree
           && n.depth == s.nodes[p].depth + 1 && n.path == s.nodes[p].path + "/" + i
           && (n.position.Some? <==> n.tree == Binary)
           && n.sponsor.Some? && (n.tree, n.sponsor.value) in s.byUser
           && Below(s.nodes, s.byUser[(n.tree, n.sponsor.value)], p)
  }

  ghost predicate UserOk(s: Store, key: UserKey) {
    key in s.byUser ==> s.byUser[key] in s.nodes && s.nodes[s.byUser[key]].tree == key.0 && s.nodes[s.byUser[key]].userId == key.1
  }

  /** No two children share a slot. */
  ghost predicate SlotUnique(nodes: map<NodeId, Node>, a: NodeId, b: NodeId) {
    a in nodes && b in nodes && nodes[a].parent.Some? && nodes[a].position.Some? ==>
      (nodes[a].parent == nodes[b].parent && nodes[a].position == nodes[b].position ==> a == b)
  }

  /** The children list of p holds exactly the nodes whose parent is p. */
  ghost predicate ChildrenOk(nodes: map<NodeId, Node>, children: map<NodeId, seq<Node>>, p: NodeId) {
    var list := ChildrenOf(children, p);
    && (forall i :: 0 <= i < |list| ==> list[i].id in nodes && list[i] == nodes[list[i].id] && list[i].parent == Some(p))
    && (forall c :: c in nodes && nodes[c].parent == Some(p) ==> nodes[c] in list)
  }

  /** The closure table holds row (a, d, t, n) exactly when a is the n-th ancestor of d in tree t. */
  ghost predicate RowOk(nodes: map<NodeId, Node>, closure: seq<ClosureRow>, row: ClosureRow) {
    row in closure <==>
      Ancestor(nodes, row.descendant, row.depth) == Some(row.ancestor) && nodes[row.descendant].tree == row.tree
  }

  ghost predicate RowsDistinct(closure: seq<ClosureRow>) {
    forall i, j :: 0 <= i < j < |closure| ==> closure[i] != closure[j]
  }

  /** Every binary node has both slots, and a slot is filled with c exactly when c's parent
      and position are that node and slot. */
  ghost predicate SlotOk(nodes: map<NodeId, Node>, slots: map<SlotKey, SlotState>, p: NodeId, x: Slot) {
    && ((p, x) in slots <==> p in nodes && nodes[p].tree == Binary)
    && ((p, x) in slots ==>
          forall c :: slots[(p, x)] == Filled(c) <==> c in nodes && nodes[c].parent == Some(p) && nodes[c].position == Some(x))
  }

  ghost predicate Shape(s: Store) {
    && (forall i {:trigger NodeOk(s, i)} :: NodeOk(s, i))
    && (forall key {:trigger UserOk(s, key)} :: UserOk(s, key))
    && (forall a, b {:trigger SlotUnique(s.nodes, a, b)} :: SlotUnique(s.nodes, a, b))
    && (forall p {:trigger ChildrenOk(s.nodes, s.children, p)} :: ChildrenOk(s.nodes, s.children, p))
  }

  ghost predicate Inv(s: Store) {
    && Shape(s)
    && (forall row {:trigger RowOk(s.nodes, s.closure, row)} :: RowOk(s.nodes, s.closure, row))
    && RowsDistinct(s.closure)
    && (forall p, x {:trigger SlotOk(s.nodes, s.slots, p, x)} :: SlotOk(s.nodes, s.slots, p, x))
    && (forall u {:trigger SpillOk(s, u)} :: SpillOk(s, u))
  }

  // ---------------------------------------------------------- spillover log

  /** The log entries about user u. */
  function LogsOf(spillovers: seq<Spillover>, u: UserId): seq<Spillover> {
    if spillovers == [] then []
    else
      var last := spillovers[|spillovers| - 1];
      LogsOf(spillovers[..|spillovers| - 1], u) + if last.member == u then [last] else []
  }

  /** A binary member spilled over when its parent is not the node of its sponsor. */
  predicate Spilled(s: Store, n: Node) {
    && n.tree == Binary && n.parent.Some? && n.sponsor.Some? && n.position.Some?
    && (Binary, n.sponsor.value) in s.byUser && n.parent.value != s.byUser[(Binary, n.sponsor.value)]
  }

  function LogEntry(n: Node): Spillover
    requires n.parent.Some? && n.sponsor.Some? && n.position.Some?
  {
    Spillover(n.sponsor.value, n.userId, n.parent.value, n.position.value)
  }

  /** Exactly the spilled members are logged, once each. */
  ghost predicate SpillOk(s: Store, u: UserId) {
    LogsOf(s.spillovers, u) ==
      if (Binary, u) in s.byUser && s.byUser[(Binary, u)] in s.nodes && Spilled(s, s.nodes[s.byUser[(Binary, u)]])
      then [LogEntry(s.nodes[s.byUser[(Binary, u)]])] else []
  }
}
