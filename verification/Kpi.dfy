/** Who may read the performance figures of an organisation node. */
module Kpi {
  import opened Wrappers
  import opened OrganizationStore
  import Organization
  import OrganizationLaws

  /** The nodes a caller was given, by tree; None stands for every tree. */
  type Scopes = map<Option<TreeType>, set<NodeId>>

  /** A caller with or without global access. */
  datatype Caller = Caller(hasGlobal: bool, userId: UserId, scopes: Scopes)

  datatype Decision = Granted | NodeNotFound | InvalidTree | Forbidden

  function ScopedFor(scopes: Scopes, key: Option<TreeType>): set<NodeId> {
    if key in scopes then scopes[key] else {}
  }

  function Candidates(scopes: Scopes, tree: TreeType): set<NodeId> {
    ScopedFor(scopes, None) + ScopedFor(scopes, Some(tree))
  }

  /** Direct matches first, then the closure table for each candidate. */
  predicate NodeInScope(s: Store, id: NodeId, tree: TreeType, scopes: Scopes) {
    if id in ScopedFor(scopes, None) then true
    else if id in ScopedFor(scopes, Some(tree)) then true
    else exists candidate :: candidate in Candidates(scopes, tree) && Related(s.closure, candidate, id, tree)
  }

  function EnforceAccess(s: Store, caller: Caller, id: NodeId, tree: TreeType): Decision {
    if caller.hasGlobal then Granted
    else if id !in s.nodes then NodeNotFound
    else if s.nodes[id].tree != tree then InvalidTree
    else if caller.scopes != map[] then
      if NodeInScope(s, id, tree, caller.scopes) then Granted else Forbidden
    else if (tree, caller.userId) !in s.byUser then Forbidden
    else
      var owner := s.byUser[(tree, caller.userId)];
      if owner == id || Related(s.closure, owner, id, tree) then Granted else Forbidden
  }

  /** The node was given for every tree, or for this one. */
  predicate Scoped(scopes: Scopes, tree: TreeType, candidate: NodeId) {
    (None in scopes && candidate in scopes[None]) || (Some(tree) in scopes && candidate in scopes[Some(tree)])
  }

  /** What the caller was given covers the node: some scoped node for its tree, or without
      any scope the caller's own node, is the node or above it by parent links. */
  ghost predicate Covered(s: Store, caller: Caller, id: NodeId, tree: TreeType) {
    if caller.scopes != map[] then
      exists candidate :: Scoped(caller.scopes, tree, candidate) && Below(s.nodes, candidate, id)
    else
      (tree, caller.userId) in s.byUser && Below(s.nodes, s.byUser[(tree, caller.userId)], id)
  }

  lemma BelowSelf(s: Store, id: NodeId)
    requires id in s.nodes
    ensures Below(s.nodes, id, id)
  {
    assert Ancestor(s.nodes, id, 0) == Some(id);
  }

  lemma InScopeIff(s: Store, id: NodeId, tree: TreeType, scopes: Scopes)
    requires Inv(s) && id in s.nodes && s.nodes[id].tree == tree
    ensures NodeInScope(s, id, tree, scopes)
       <==> exists candidate :: Scoped(scopes, tree, candidate) && Below(s.nodes, candidate, id)
  {
    BelowSelf(s, id);
    forall candidate ensures candidate in Candidates(scopes, tree) <==> Scoped(scopes, tree, candidate) {
    }
    forall candidate ensures Related(s.closure, candidate, id, tree) <==> Below(s.nodes, candidate, id) {
      Organization.RelatedIff(s, candidate, id, tree);
    }
  }

  /** On every run each decision is given exactly under its condition. */
  lemma AccessExact(ops: seq<Organization.Op>, caller: Caller, id: NodeId, tree: TreeType)
    requires forall i :: 0 <= i < |ops| ==> ValidId(ops[i].id)
    ensures var s := Organization.Run(ops); var d := EnforceAccess(s, caller, id, tree);
      && (d == NodeNotFound <==> !caller.hasGlobal && id !in s.nodes)
      && (d == Forbidden <==> !caller.hasGlobal && id in s.nodes && s.nodes[id].tree == tree && !Covered(s, caller, id, tree))
      && (d == InvalidTree <==> !caller.hasGlobal && id in s.nodes && s.nodes[id].tree != tree)
      && (d == Granted <==> caller.hasGlobal || (id in s.nodes && s.nodes[id].tree == tree && Covered(s, caller, id, tree)))
  {
    Organization.RunKeeps(ops);
    var s := Organization.Run(ops);
    if id in s.nodes && s.nodes[id].tree == tree {
      InScopeIff(s, id, tree, caller.scopes);
      BelowSelf(s, id);
      if (tree, caller.userId) in s.byUser {
        Organization.RelatedIff(s, s.byUser[(tree, caller.userId)], id, tree);
      }
    }
  }

  /** A node the caller may read brings its whole subtree with it. */
  lemma AccessInherited(ops: seq<Organization.Op>, caller: Caller, above: NodeId, id: NodeId, tree: TreeType)
    requires forall i :: 0 <= i < |ops| ==> ValidId(ops[i].id)
    requires var s := Organization.Run(ops);
      Below(s.nodes, above, id) && s.nodes[id].tree == tree && EnforceAccess(s, caller, above, tree) == Granted
    ensures EnforceAccess(Organization.Run(ops), caller, id, tree) == Granted
  {
    var s := Organization.Run(ops);
    AccessExact(ops, caller, above, tree);
    AccessExact(ops, caller, id, tree);
    var j: nat :| Ancestor(s.nodes, id, j) == Some(above);
    forall top | Below(s.nodes, top, above) ensures Below(s.nodes, top, id) {
      var k: nat :| Ancestor(s.nodes, above, k) == Some(top);
      OrganizationLaws.AncestorCompose(s.nodes, id, j, k);
    }
  }
}
