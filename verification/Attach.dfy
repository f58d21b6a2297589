/** Handing out neighbours, seen from the trees: each method runs the assignment loop of one edge
    and shows that the nodes then stand for trees with exactly that edge filled in. */
module Attach {
  import opened Wrappers
  import opened Relational
  import opened Schema
  import opened Joins
  import opened Index
  import opened Queries
  import opened Entities
  import opened Assign
  import opened Streaming

  ghost function ContentsOf(nodes: seq<Account>): seq<Fields>
    reads nodes
  {
    seq(|nodes|, i requires 0 <= i < |nodes| reads nodes => nodes[i].Contents())
  }

  ghost predicate AllOK(fields: seq<Fields>, trees: seq<AccountTree>, w: World) {
    |fields| == |trees| && forall i | 0 <= i < |trees| :: FieldsOK(fields[i], trees[i], w)
  }

  /** Distinct nodes that agree with these trees, over a world they are not part of. */
  ghost predicate NodesOK(nodes: seq<Account>, trees: seq<AccountTree>, w: World)
    reads nodes
  {
    && Distinct(nodes) && (forall i | 0 <= i < |nodes| :: nodes[i] !in w.accounts)
    && AllOK(ContentsOf(nodes), trees, w)
  }

  lemma NodesAgree(nodes: seq<Account>, trees: seq<AccountTree>, w: World)
    requires NodesOK(nodes, trees, w)
    ensures |nodes| == |trees| && forall i | 0 <= i < |nodes| :: FieldsOK(nodes[i].Contents(), trees[i], w)
  {
    forall i | 0 <= i < |nodes| ensures FieldsOK(nodes[i].Contents(), trees[i], w) {
      assert ContentsOf(nodes)[i] == nodes[i].Contents();
    }
  }

  ghost function TreeParentKeys(trees: seq<AccountTree>): seq<Option<int>> {
    seq(|trees|, i requires 0 <= i < |trees| => trees[i].row.parentAccountID)
  }

  ghost function TreeIDs(trees: seq<AccountTree>): seq<int> {
    seq(|trees|, i requires 0 <= i < |trees| => trees[i].row.id)
  }

  lemma FoundIDs(neighbors: seq<Account>, trees: seq<AccountTree>, w: World)
    requires AccountsAre(neighbors, trees, w) && Closed(w)
    ensures AccountIDs(neighbors) == TreeIDs(trees) == Map(TreeID, trees)
    ensures ParentKeysOf(neighbors) == TreeParentKeys(trees) == Map(ParentKey, trees)
  {
    forall i | 0 <= i < |trees|
      ensures neighbors[i].Row() == trees[i].row
    {
      assert AccountOK(neighbors[i], w.accounts[neighbors[i]], w);
    }
    assert forall i | 0 <= i < |trees| :: Map(TreeID, trees)[i] == TreeID(trees[i]);
    assert forall i | 0 <= i < |trees| :: Map(ParentKey, trees)[i] == ParentKey(trees[i]);
  }

  lemma AllKnown(ids: seq<int>, known: set<int>)
    requires forall i | 0 <= i < |ids| :: ids[i] in known
    ensures FirstUnknown(ids, known) == |ids|
  {
  }

  /** The tree a node gets from its key. */
  ghost function ParentTree(trees: seq<AccountTree>, key: Option<int>): Option<AccountTree> {
    if key.None? then None else FindLast(trees, TreeID, key.value)
  }

  ghost function LeafTree(rows: seq<LeafRow>, key: Option<int>): Option<LeafRow> {
    if key.None? then None else FindLast(rows, LeafKey, key.value)
  }

  lemma GivenTree(neighbors: seq<Account>, trees: seq<AccountTree>, key: Option<int>, w: World)
    requires AccountsAre(neighbors, trees, w) && Closed(w)
    ensures AccountIs(Given<Account?>(null, neighbors, AccountIDs(neighbors), |neighbors|, key),
                      ParentTree(trees, key), w)
  {
    FoundIDs(neighbors, trees, w);
    assert AccountIDs(neighbors)[..|neighbors|] == AccountIDs(neighbors);
  }

  /** Trees with the parent edge filled in from the neighbours' trees. */
  ghost function WithParents(nodes: seq<AccountTree>, keys: seq<Option<int>>, trees: seq<AccountTree>): seq<AccountTree>
    requires |keys| == |nodes|
  {
    seq(|nodes|, i requires 0 <= i < |nodes| => nodes[i].(parent := ParentTree(trees, keys[i])))
  }

  lemma ParentAttached(f: Fields, tree: AccountTree, w: World, parent: Account?, parentTree: Option<AccountTree>,
                       v: World)
    requires FieldsOK(f, tree, w) && AccountIs(parent, parentTree, v) && Apart(w, v)
    ensures FieldsOK(f.(parent := parent), tree.(parent := parentTree), Union(w, v))
  {
    FieldsOKGrows(f, tree, w, Union(w, v));
  }

  ghost function GivenParents(had: seq<Fields>, neighbors: seq<Account>, found: seq<int>,
                              keys: seq<Option<int>>): seq<Fields>
    requires |keys| == |had| && |found| == |neighbors|
  {
    seq(|had|,
        i requires 0 <= i < |had| => had[i].(parent := Given<Account?>(null, neighbors, found, |found|, keys[i])))
  }

  lemma ParentsHanded(had: seq<Fields>, were: seq<AccountTree>, w: World, neighbors: seq<Account>,
                      keys: seq<Option<int>>,
                      trees: seq<AccountTree>, v: World)
    requires AllOK(had, were, w) && Apart(w, v) && Closed(v) && |keys| == |had|
    requires AccountsAre(neighbors, trees, v)
    ensures AllOK(GivenParents(had, neighbors, AccountIDs(neighbors), keys), WithParents(were, keys, trees),
                  Union(w, v))
  {
    var found := AccountIDs(neighbors);
    forall i | 0 <= i < |had|
      ensures FieldsOK(GivenParents(had, neighbors, found, keys)[i], WithParents(were, keys, trees)[i], Union(w, v))
    {
      GivenTree(neighbors, trees, keys[i], v);
      ParentAttached(had[i], were[i], w, Given<Account?>(null, neighbors, found, |found|, keys[i]),
                     ParentTree(trees, keys[i]), v);
    }
  }

  method HandParent(nodes: seq<Account>, ghost keys: seq<Option<int>>, ghost ids: seq<int>,
                    nodeids: map<int, seq<Account>>, neighbors: seq<Account>, ghost scope: set<Account>, ghost u: World)
    returns (err: Option<Error>)
    requires Distinct(nodes) && |keys| == |nodes| && Indexed(nodes, keys, ids, nodeids)
    requires scope == set x | x in nodes
    requires forall i | 0 <= i < |nodes| :: nodes[i].parent == null && nodes[i] !in u.accounts
    requires forall i | 0 <= i < |neighbors| :: AccountIDs(neighbors)[i] in ids
    requires Closed(u)
    modifies scope`parent
    ensures err == None && Closed(u)
    ensures ContentsOf(nodes) == GivenParents(old(ContentsOf(nodes)), neighbors, old(AccountIDs(neighbors)), keys)
  {
    ghost var found, had := AccountIDs(neighbors), ContentsOf(nodes);
    forall i | 0 <= i < |found| ensures found[i] in nodeids.Keys { assert AccountIDs(neighbors)[i] in ids; }
    AllKnown(found, nodeids.Keys);
    err := AssignParent(nodes, keys, ids, nodeids, neighbors, scope);
    forall i | 0 <= i < |nodes| ensures ContentsOf(nodes)[i] == GivenParents(had, neighbors, found, keys)[i] {
      assert nodes[i].parent == Given<Account?>(null, neighbors, found, |found|, keys[i]);
      assert nodes[i].Contents() == had[i].(parent := nodes[i].parent);
    }
  }

  method AttachParent(nodes: seq<Account>, ghost keys: seq<Option<int>>, ghost ids: seq<int>,
                      nodeids: map<int, seq<Account>>, neighbors: seq<Account>, ghost trees: seq<AccountTree>,
                      ghost scope: set<Account>, ghost were: seq<AccountTree>, ghost w: World, ghost v: World)
    returns (err: Option<Error>)
    requires NodesOK(nodes, were, w) && |keys| == |nodes| && Indexed(nodes, keys, ids, nodeids)
    requires scope == set x | x in nodes
    requires forall i | 0 <= i < |nodes| :: were[i].parent == None && nodes[i] !in v.accounts
    requires Apart(w, v) && Closed(w) && Closed(v) && AccountsAre(neighbors, trees, v)
    requires forall i | 0 <= i < |trees| :: trees[i].row.id in ids
    modifies scope`parent
    ensures err == None && NodesOK(nodes, WithParents(were, keys, trees), Union(w, v)) && Closed(Union(w, v))
  {
    NodesAgree(nodes, were, w);
    FoundIDs(neighbors, trees, v);
    ParentsHanded(ContentsOf(nodes), were, w, neighbors, keys, trees, v);
    ClosedUnion(w, v);
    err := HandParent(nodes, keys, ids, nodeids, neighbors, scope, Union(w, v));
  }

  // ----- proxies -----

  ghost function WithProxies(nodes: seq<AccountTree>, keys: seq<Option<int>>, rows: seq<LeafRow>): seq<AccountTree>
    requires |keys| == |nodes|
  {
    seq(|nodes|, i requires 0 <= i < |nodes| => nodes[i].(proxy := LeafTree(rows, keys[i])))
  }

  lemma FoundLeaves(neighbors: seq<Leaf>, rows: seq<LeafRow>)
    requires LeavesAre(neighbors, rows)
    ensures LeafIDs(neighbors) == Map(LeafKey, rows)
  {
    assert forall i | 0 <= i < |rows| :: Map(LeafKey, rows)[i] == LeafKey(rows[i]);
  }

  lemma GivenLeaf(neighbors: seq<Leaf>, rows: seq<LeafRow>, key: Option<int>)
    requires LeavesAre(neighbors, rows)
    ensures LeafIs(Given<Leaf?>(null, neighbors, LeafIDs(neighbors), |neighbors|, key), LeafTree(rows, key))
  {
    FoundLeaves(neighbors, rows);
    assert LeafIDs(neighbors)[..|neighbors|] == LeafIDs(neighbors);
  }

  method AttachProxy(nodes: seq<Account>, ghost keys: seq<Option<int>>, ghost ids: seq<int>,
                     nodeids: map<int, seq<Account>>, neighbors: seq<Leaf>, ghost rows: seq<LeafRow>,
                     ghost scope: set<Account>, ghost were: seq<AccountTree>, ghost w: World)
    returns (err: Option<Error>)
    requires NodesOK(nodes, were, w) && |keys| == |nodes| && Indexed(nodes, keys, ids, nodeids)
    requires scope == set x | x in nodes
    requires forall i | 0 <= i < |nodes| :: were[i].proxy == None
    requires LeavesAre(neighbors, rows) && forall i | 0 <= i < |rows| :: rows[i].id in ids
    modifies scope`proxy
    ensures err == None && NodesOK(nodes, WithProxies(were, keys, rows), w)
  {
    NodesAgree(nodes, were, w);
    ghost var found := LeafIDs(neighbors);
    ghost var had := ContentsOf(nodes);
    err := AssignProxy(nodes, keys, ids, nodeids, neighbors, scope);
    assert FirstUnknown(found, nodeids.Keys) == |found|;
    forall i | 0 <= i < |nodes|
      ensures AccountOK(nodes[i], WithProxies(were, keys, rows)[i], w)
    {
      assert nodes[i].Contents() == had[i].(proxy := Given<Leaf?>(null, neighbors, found, |found|, keys[i]));
      GivenLeaf(neighbors, rows, keys[i]);
    }
  }

  // ----- children -----

  ghost predicate UniqueIDs(nodes: seq<Account>)
    reads nodes
  {
    forall i, j | 0 <= i < j < |nodes| :: nodes[i].id != nodes[j].id
  }

  /** Where ids are unique, the index answers every id with the one node that has it. */
  lemma IndexAnswers(nodes: seq<Account>, nodeids: map<int, Account>)
    requires UniqueIDs(nodes) && IndexedByID(nodes, nodeids)
    ensures forall i | 0 <= i < |nodes| :: nodes[i].id in nodeids && nodeids[nodes[i].id] == nodes[i]
    ensures forall k | k in nodeids :: nodeids[k] in nodes && nodeids[k].id == k
    ensures forall k, l | k in nodeids && l in nodeids && k != l :: nodeids[k] != nodeids[l]
  {
    forall i | 0 <= i < |nodes| ensures nodes[i].id in nodeids && nodeids[nodes[i].id] == nodes[i] {
      assert AccountIDs(nodes)[i] == nodes[i].id;
      var at := LastIndex(AccountIDs(nodes), nodes[i].id);
      assert AccountIDs(nodes)[at] == nodes[at].id;
    }
  }

  lemma AllIndexed(keys: seq<Option<int>>, known: set<int>)
    requires forall i | 0 <= i < |keys| :: keys[i].Some? && keys[i].value in known
    ensures FirstBadKey(keys, known) == |keys|
  {
  }

  ghost function WithChildren(nodes: seq<AccountTree>, trees: seq<AccountTree>): seq<AccountTree> {
    seq(|nodes|, i requires 0 <= i < |nodes| => nodes[i].(children := ChildrenOf(nodes[i].row.id, trees)))
  }

  lemma PickedChildren(neighbors: seq<Account>, trees: seq<AccountTree>, id: int, w: World)
    requires AccountsAre(neighbors, trees, w) && Closed(w)
    ensures AccountsAre(WithKey(neighbors, ParentKeysOf(neighbors), id), ChildrenOf(id, trees), w)
  {
    FoundIDs(neighbors, trees, w);
    var at := WithKeyRelated(neighbors, trees, ParentKeysOf(neighbors), id);
  }

  lemma ChildrenAttached(f: Fields, tree: AccountTree, w: World, children: seq<Account>, trees: seq<AccountTree>,
                         v: World)
    requires FieldsOK(f, tree, w) && AccountsAre(children, trees, v) && Apart(w, v)
    ensures FieldsOK(f.(children := children), tree.(children := trees), Union(w, v))
  {
    FieldsOKGrows(f, tree, w, Union(w, v));
  }

  ghost function GivenChildren(had: seq<Fields>, neighbors: seq<Account>, keys: seq<Option<int>>): seq<Fields>
    requires |keys| == |neighbors|
  {
    seq(|had|, i requires 0 <= i < |had| => had[i].(children := WithKey(neighbors, keys, had[i].row.id)))
  }

  lemma ChildrenHanded(had: seq<Fields>, were: seq<AccountTree>, w: World, neighbors: seq<Account>,
                       keys: seq<Option<int>>,
              trees: seq<AccountTree>, v: World)
    requires AllOK(had, were, w) && Apart(w, v) && Closed(v)
    requires AccountsAre(neighbors, trees, v) && keys == ParentKeysOf(neighbors)
    ensures AllOK(GivenChildren(had, neighbors, keys), WithChildren(were, trees), Union(w, v))
  {
    forall i | 0 <= i < |had|
      ensures FieldsOK(GivenChildren(had, neighbors, keys)[i], WithChildren(were, trees)[i], Union(w, v))
    {
      var id := had[i].row.id;
      PickedChildren(neighbors, trees, id, v);
      ChildrenAttached(had[i], were[i], w, WithKey(neighbors, keys, id), ChildrenOf(id, trees), v);
    }
  }

  method HandChildren(nodes: seq<Account>, nodeids: map<int, Account>, neighbors: seq<Account>,
                      ghost scope: set<Account>, ghost u: World)
    returns (err: Option<Error>)
    requires Distinct(nodes) && UniqueIDs(nodes) && IndexedByID(nodes, nodeids)
    requires scope == set x | x in nodes
    requires forall i | 0 <= i < |nodes| :: nodes[i].children == [] && nodes[i] !in u.accounts
    requires forall i | 0 <= i < |neighbors| ::
      ParentKeysOf(neighbors)[i].Some? && ParentKeysOf(neighbors)[i].value in nodeids
    requires Closed(u)
    modifies scope`children
    ensures err == None && Closed(u)
    ensures ContentsOf(nodes) == GivenChildren(old(ContentsOf(nodes)), neighbors, old(ParentKeysOf(neighbors)))
  {
    ghost var keys, ids, had := ParentKeysOf(neighbors), AccountIDs(nodes), ContentsOf(nodes);
    IndexAnswers(nodes, nodeids);
    AllIndexed(keys, nodeids.Keys);
    err := AssignChildren(nodeids, neighbors, scope);
    assert neighbors[..|keys|] == neighbors && keys[..|keys|] == keys;
    forall i | 0 <= i < |nodes|
      ensures ContentsOf(nodes)[i] == GivenChildren(had, neighbors, keys)[i]
    {
      assert nodeids[ids[i]] == nodes[i];
    }
  }

  method AttachChildren(nodes: seq<Account>, nodeids: map<int, Account>, neighbors: seq<Account>,
                        ghost trees: seq<AccountTree>, ghost scope: set<Account>, ghost were: seq<AccountTree>,
                        ghost w: World, ghost v: World)
    returns (err: Option<Error>)
    requires NodesOK(nodes, were, w) && UniqueIDs(nodes) && IndexedByID(nodes, nodeids)
    requires scope == set x | x in nodes
    requires forall i | 0 <= i < |nodes| :: were[i].children == [] && nodes[i] !in v.accounts
    requires Apart(w, v) && Closed(w) && Closed(v) && AccountsAre(neighbors, trees, v)
    requires forall i | 0 <= i < |trees| ::
      trees[i].row.parentAccountID.Some? && trees[i].row.parentAccountID.value in nodeids
    modifies scope`children
    ensures err == None && NodesOK(nodes, WithChildren(were, trees), Union(w, v)) && Closed(Union(w, v))
  {
    NodesAgree(nodes, were, w);
    ghost var keys, had := ParentKeysOf(neighbors), ContentsOf(nodes);
    FoundIDs(neighbors, trees, v);
    ChildrenHanded(had, were, w, neighbors, keys, trees, v);
    ClosedUnion(w, v);
    err := HandChildren(nodes, nodeids, neighbors, scope, Union(w, v));
  }

  // ----- rows of the join table -----

  ghost function TreeJoinKeys(trees: seq<JoinTree>): seq<Option<int>> {
    seq(|trees|, i requires 0 <= i < |trees| => Some(trees[i].row.accountID))
  }

  lemma FoundJoins(neighbors: seq<AccountGroup>, trees: seq<JoinTree>, w: World)
    requires JoinsAre(neighbors, trees, w) && Closed(w)
    ensures JoinKeysOf(neighbors) == TreeJoinKeys(trees) == Map(JoinKey, trees)
  {
    forall i | 0 <= i < |trees|
      ensures neighbors[i].Row() == trees[i].row
    {
      assert JoinOK(neighbors[i], w.joins[neighbors[i]], w);
    }
    assert forall i | 0 <= i < |trees| :: Map(JoinKey, trees)[i] == JoinKey(trees[i]);
  }

  ghost function WithJoins(nodes: seq<AccountTree>, trees: seq<JoinTree>): seq<AccountTree> {
    seq(|nodes|, i requires 0 <= i < |nodes| => nodes[i].(accountGroups := JoinsOf(nodes[i].row.id, trees)))
  }

  lemma PickedJoins(neighbors: seq<AccountGroup>, trees: seq<JoinTree>, id: int, w: World)
    requires JoinsAre(neighbors, trees, w) && Closed(w)
    ensures JoinsAre(WithKey(neighbors, JoinKeysOf(neighbors), id), JoinsOf(id, trees), w)
  {
    FoundJoins(neighbors, trees, w);
    var at := WithKeyRelated(neighbors, trees, JoinKeysOf(neighbors), id);
  }

  lemma JoinsAttached(f: Fields, tree: AccountTree, w: World, joins: seq<AccountGroup>, trees: seq<JoinTree>, v: World)
    requires FieldsOK(f, tree, w) && JoinsAre(joins, trees, v) && Apart(w, v)
    ensures FieldsOK(f.(accountGroups := joins), tree.(accountGroups := trees), Union(w, v))
  {
    FieldsOKGrows(f, tree, w, Union(w, v));
  }

  ghost function GivenJoins(had: seq<Fields>, neighbors: seq<AccountGroup>, keys: seq<Option<int>>): seq<Fields>
    requires |keys| == |neighbors|
  {
    seq(|had|, i requires 0 <= i < |had| => had[i].(accountGroups := WithKey(neighbors, keys, had[i].row.id)))
  }

  lemma JoinsHanded(had: seq<Fields>, were: seq<AccountTree>, w: World, neighbors: seq<AccountGroup>,
                    keys: seq<Option<int>>,
              trees: seq<JoinTree>, v: World)
    requires AllOK(had, were, w) && Apart(w, v) && Closed(v)
    requires JoinsAre(neighbors, trees, v) && keys == JoinKeysOf(neighbors)
    ensures AllOK(GivenJoins(had, neighbors, keys), WithJoins(were, trees), Union(w, v))
  {
    forall i | 0 <= i < |had|
      ensures FieldsOK(GivenJoins(had, neighbors, keys)[i], WithJoins(were, trees)[i], Union(w, v))
    {
      var id := had[i].row.id;
      PickedJoins(neighbors, trees, id, v);
      JoinsAttached(had[i], were[i], w, WithKey(neighbors, keys, id), JoinsOf(id, trees), v);
    }
  }

  method HandAccountGroups(nodes: seq<Account>, nodeids: map<int, Account>, neighbors: seq<AccountGroup>,
                           ghost scope: set<Account>, ghost u: World)
    returns (err: Option<Error>)
    requires Distinct(nodes) && UniqueIDs(nodes) && IndexedByID(nodes, nodeids)
    requires scope == set x | x in nodes
    requires forall i | 0 <= i < |nodes| :: nodes[i].accountGroups == [] && nodes[i] !in u.accounts
    requires forall i | 0 <= i < |neighbors| ::
      JoinKeysOf(neighbors)[i].Some? && JoinKeysOf(neighbors)[i].value in nodeids
    requires Closed(u)
    modifies scope`accountGroups
    ensures err == None && Closed(u)
    ensures ContentsOf(nodes) == GivenJoins(old(ContentsOf(nodes)), neighbors, old(JoinKeysOf(neighbors)))
  {
    ghost var keys, ids, had := JoinKeysOf(neighbors), AccountIDs(nodes), ContentsOf(nodes);
    IndexAnswers(nodes, nodeids);
    AllIndexed(keys, nodeids.Keys);
    err := AssignAccountGroups(nodeids, neighbors, scope);
    assert neighbors[..|keys|] == neighbors && keys[..|keys|] == keys;
    forall i | 0 <= i < |nodes|
      ensures ContentsOf(nodes)[i] == GivenJoins(had, neighbors, keys)[i]
    {
      assert nodeids[ids[i]] == nodes[i];
    }
  }

  method AttachAccountGroups(nodes: seq<Account>, nodeids: map<int, Account>, neighbors: seq<AccountGroup>,
                             ghost trees: seq<JoinTree>, ghost scope: set<Account>, ghost were: seq<AccountTree>,
                             ghost w: World, ghost v: World)
    returns (err: Option<Error>)
    requires NodesOK(nodes, were, w) && UniqueIDs(nodes) && IndexedByID(nodes, nodeids)
    requires scope == set x | x in nodes
    requires forall i | 0 <= i < |nodes| :: were[i].accountGroups == [] && nodes[i] !in v.accounts
    requires Apart(w, v) && Closed(w) && Closed(v) && JoinsAre(neighbors, trees, v)
    requires forall i | 0 <= i < |trees| :: trees[i].row.accountID in nodeids
    modifies scope`accountGroups
    ensures err == None && NodesOK(nodes, WithJoins(were, trees), Union(w, v)) && Closed(Union(w, v))
  {
    NodesAgree(nodes, were, w);
    ghost var keys, had := JoinKeysOf(neighbors), ContentsOf(nodes);
    FoundJoins(neighbors, trees, v);
    JoinsHanded(had, were, w, neighbors, keys, trees, v);
    ClosedUnion(w, v);
    err := HandAccountGroups(nodes, nodeids, neighbors, scope, Union(w, v));
  }

  // ----- groups -----

  ghost function WithGroups(nodes: seq<AccountTree>, stream: seq<JoinRow>): seq<AccountTree> {
    seq(|nodes|, i requires 0 <= i < |nodes| => nodes[i].(groups := GroupsFor(stream, nodes[i].row.id)))
  }

  lemma {:induction false} AppendedAre(stream: seq<JoinRow>, rows: seq<LeafRow>, byID: map<int, Account>,
                                       nids: map<int, set<Account>>, neighbors: seq<Leaf>, id: int)
    requires LeavesAre(neighbors, rows)
    requires forall i | 0 <= i < |neighbors| :: neighbors[i].row.id in nids
    requires forall g | g in nids :: nids[g] == JoinedAccounts(stream, byID, g)
    requires id in byID && forall k | k in byID && k != id :: byID[k] != byID[id]
    ensures LeavesAre(Appended(nids, neighbors, byID[id]), Keep((g: LeafRow) => Joined(stream, id, g.id), rows))
  {
    if rows == [] {
    } else {
      var n := |rows| - 1;
      AppendedAre(stream, rows[..n], byID, nids, neighbors[..n], id);
      var joined := (g: LeafRow) => Joined(stream, id, g.id);
      assert rows == rows[..n] + [rows[n]];
      KeepConcat(joined, rows[..n], [rows[n]]);
      assert Keep(joined, [rows[n]]) == if joined(rows[n]) then [rows[n]] else [];
      assert byID[id] in nids[rows[n].id] <==> Joined(stream, id, rows[n].id);
    }
  }

  ghost function GivenGroups(had: seq<Fields>, nodes: seq<Account>, nids: map<int, set<Account>>,
                             neighbors: seq<Leaf>): seq<Fields>
    requires |had| == |nodes| && forall i | 0 <= i < |neighbors| :: neighbors[i].row.id in nids
  {
    seq(|had|, i requires 0 <= i < |had| => had[i].(groups := Appended(nids, neighbors, nodes[i])))
  }

  method HandGroups(nodes: seq<Account>, nids: map<int, set<Account>>, neighbors: seq<Leaf>, ghost scope: set<Account>)
    returns (err: Option<Error>)
    requires scope == set x | x in nodes
    requires forall i | 0 <= i < |nodes| :: nodes[i].groups == []
    requires forall i | 0 <= i < |neighbors| :: neighbors[i].row.id in nids
    requires forall g | g in nids :: nids[g] <= scope
    modifies scope`groups
    ensures err == None && ContentsOf(nodes) == GivenGroups(old(ContentsOf(nodes)), nodes, nids, neighbors)
  {
    ghost var had := ContentsOf(nodes);
    err := AssignGroups(nids, neighbors, scope);
    assert FirstUnknown(LeafIDs(neighbors), nids.Keys) == |neighbors|;
    assert neighbors[..|neighbors|] == neighbors;
    forall i | 0 <= i < |nodes| ensures ContentsOf(nodes)[i] == GivenGroups(had, nodes, nids, neighbors)[i] {
      assert nodes[i] in scope && had[i].groups == [];
      assert nodes[i].Contents() == had[i].(groups := nodes[i].groups);
    }
  }

  method AttachGroups(nodes: seq<Account>, byID: map<int, Account>, nids: map<int, set<Account>>, neighbors: seq<Leaf>,
                      ghost stream: seq<JoinRow>, ghost scope: set<Account>, ghost were: seq<AccountTree>,
                      ghost w: World)
    returns (err: Option<Error>)
    requires NodesOK(nodes, were, w) && UniqueIDs(nodes) && IndexedByID(nodes, byID)
    requires scope == set x | x in nodes
    requires forall i | 0 <= i < |nodes| :: were[i].groups == []
    requires Streamed(stream, byID, nids, neighbors)
    modifies scope`groups
    ensures err == None && NodesOK(nodes, WithGroups(were, stream), w)
  {
    NodesAgree(nodes, were, w);
    IndexAnswers(nodes, byID);
    ghost var rows := Firsts(stream);
    forall i | 0 <= i < |neighbors| ensures neighbors[i].row.id in nids {
      assert rows[i].id == neighbors[i].row.id;
      assert Mentions(rows, rows[i].id);
    }
    ghost var had := ContentsOf(nodes);
    forall i | 0 <= i < |nodes|
      ensures FieldsOK(GivenGroups(had, nodes, nids, neighbors)[i], WithGroups(were, stream)[i], w)
    {
      assert byID[nodes[i].id] == nodes[i];
      AppendedAre(stream, rows, byID, nids, neighbors, nodes[i].id);
    }
    err := HandGroups(nodes, nids, neighbors, scope);
  }

  // ----- edges of join rows -----

  ghost function JoinContentsOf(nodes: seq<AccountGroup>): seq<JoinFields>
    reads nodes
  {
    seq(|nodes|, i requires 0 <= i < |nodes| reads nodes => nodes[i].Contents())
  }

  ghost predicate AllJoinsOK(fields: seq<JoinFields>, trees: seq<JoinTree>, w: World) {
    |fields| == |trees| && forall i | 0 <= i < |trees| :: JoinFieldsOK(fields[i], trees[i], w)
  }

  ghost predicate JoinNodesOK(nodes: seq<AccountGroup>, trees: seq<JoinTree>, w: World)
    reads nodes
  {
    && Distinct(nodes) && (forall i | 0 <= i < |nodes| :: nodes[i] !in w.joins)
    && AllJoinsOK(JoinContentsOf(nodes), trees, w)
  }

  lemma JoinNodesAgree(nodes: seq<AccountGroup>, trees: seq<JoinTree>, w: World)
    requires JoinNodesOK(nodes, trees, w)
    ensures |nodes| == |trees| && forall i | 0 <= i < |nodes| :: JoinFieldsOK(nodes[i].Contents(), trees[i], w)
  {
    forall i | 0 <= i < |nodes| ensures JoinFieldsOK(nodes[i].Contents(), trees[i], w) {
      assert JoinContentsOf(nodes)[i] == nodes[i].Contents();
    }
  }

  ghost function WithAccounts(nodes: seq<JoinTree>, keys: seq<Option<int>>, trees: seq<AccountTree>): seq<JoinTree>
    requires |keys| == |nodes|
  {
    seq(|nodes|, i requires 0 <= i < |nodes| => nodes[i].(account := ParentTree(trees, keys[i])))
  }

  ghost function GivenAccounts(had: seq<JoinFields>, neighbors: seq<Account>, found: seq<int>,
                               keys: seq<Option<int>>): seq<JoinFields>
    requires |keys| == |had| && |found| == |neighbors|
  {
    seq(|had|,
        i requires 0 <= i < |had| => had[i].(account := Given<Account?>(null, neighbors, found, |found|, keys[i])))
  }

  lemma AccountsHanded(had: seq<JoinFields>, were: seq<JoinTree>, w: World, neighbors: seq<Account>,
                       keys: seq<Option<int>>,
                       trees: seq<AccountTree>, v: World)
    requires AllJoinsOK(had, were, w) && Apart(w, v) && Closed(v) && |keys| == |had|
    requires AccountsAre(neighbors, trees, v)
    ensures AllJoinsOK(GivenAccounts(had, neighbors, AccountIDs(neighbors), keys), WithAccounts(were, keys, trees),
                       Union(w, v))
  {
    var found := AccountIDs(neighbors);
    forall i | 0 <= i < |had|
      ensures JoinFieldsOK(GivenAccounts(had, neighbors, found, keys)[i], WithAccounts(were, keys, trees)[i],
                           Union(w, v))
    {
      GivenTree(neighbors, trees, keys[i], v);
    }
  }

  method HandJoinAccount(nodes: seq<AccountGroup>, ghost keys: seq<Option<int>>, ghost ids: seq<int>,
                         nodeids: map<int, seq<AccountGroup>>, neighbors: seq<Account>, ghost scope: set<AccountGroup>,
                         ghost u: World)
    returns (err: Option<Error>)
    requires Distinct(nodes) && |keys| == |nodes| && Indexed(nodes, keys, ids, nodeids)
    requires scope == set x | x in nodes
    requires forall i | 0 <= i < |nodes| :: nodes[i].account == null && nodes[i] !in u.joins
    requires forall i | 0 <= i < |neighbors| :: AccountIDs(neighbors)[i] in ids
    requires Closed(u)
    modifies scope`account
    ensures err == None && Closed(u)
    ensures JoinContentsOf(nodes) ==
            GivenAccounts(old(JoinContentsOf(nodes)), neighbors, old(AccountIDs(neighbors)), keys)
  {
    ghost var found, had := AccountIDs(neighbors), JoinContentsOf(nodes);
    forall i | 0 <= i < |found| ensures found[i] in nodeids.Keys { assert AccountIDs(neighbors)[i] in ids; }
    AllKnown(found, nodeids.Keys);
    err := AssignJoinAccount(nodes, keys, ids, nodeids, neighbors, scope);
    forall i | 0 <= i < |nodes| ensures JoinContentsOf(nodes)[i] == GivenAccounts(had, neighbors, found, keys)[i] {
      assert nodes[i].account == Given<Account?>(null, neighbors, found, |found|, keys[i]);
      assert nodes[i].Contents() == had[i].(account := nodes[i].account);
    }
  }

  method AttachJoinAccount(nodes: seq<AccountGroup>, ghost keys: seq<Option<int>>, ghost ids: seq<int>,
                           nodeids: map<int, seq<AccountGroup>>, neighbors: seq<Account>, ghost trees: seq<AccountTree>,
                           ghost scope: set<AccountGroup>, ghost were: seq<JoinTree>, ghost w: World, ghost v: World)
    returns (err: Option<Error>)
    requires JoinNodesOK(nodes, were, w) && |keys| == |nodes| && Indexed(nodes, keys, ids, nodeids)
    requires scope == set x | x in nodes
    requires forall i | 0 <= i < |nodes| :: were[i].account == None && nodes[i] !in v.joins
    requires Apart(w, v) && Closed(w) && Closed(v) && AccountsAre(neighbors, trees, v)
    requires forall i | 0 <= i < |trees| :: trees[i].row.id in ids
    modifies scope`account
    ensures err == None && JoinNodesOK(nodes, WithAccounts(were, keys, trees), Union(w, v)) && Closed(Union(w, v))
  {
    JoinNodesAgree(nodes, were, w);
    FoundIDs(neighbors, trees, v);
    AccountsHanded(JoinContentsOf(nodes), were, w, neighbors, keys, trees, v);
    ClosedUnion(w, v);
    err := HandJoinAccount(nodes, keys, ids, nodeids, neighbors, scope, Union(w, v));
  }

  ghost function WithJoinGroups(nodes: seq<JoinTree>, keys: seq<Option<int>>, rows: seq<LeafRow>): seq<JoinTree>
    requires |keys| == |nodes|
  {
    seq(|nodes|, i requires 0 <= i < |nodes| => nodes[i].(group := LeafTree(rows, keys[i])))
  }

  method AttachJoinGroup(nodes: seq<AccountGroup>, ghost keys: seq<Option<int>>, ghost ids: seq<int>,
                         nodeids: map<int, seq<AccountGroup>>, neighbors: seq<Leaf>, ghost rows: seq<LeafRow>,
                         ghost scope: set<AccountGroup>, ghost were: seq<JoinTree>, ghost w: World)
    returns (err: Option<Error>)
    requires JoinNodesOK(nodes, were, w) && |keys| == |nodes| && Indexed(nodes, keys, ids, nodeids)
    requires scope == set x | x in nodes
    requires forall i | 0 <= i < |nodes| :: were[i].group == None
    requires LeavesAre(neighbors, rows) && forall i | 0 <= i < |rows| :: rows[i].id in ids
    modifies scope`group
    ensures err == None && JoinNodesOK(nodes, WithJoinGroups(were, keys, rows), w)
  {
    JoinNodesAgree(nodes, were, w);
    ghost var found, had := LeafIDs(neighbors), JoinContentsOf(nodes);
    AllKnown(found, nodeids.Keys);
    err := AssignJoinGroup(nodes, keys, ids, nodeids, neighbors, scope);
    forall i | 0 <= i < |nodes|
      ensures JoinFieldsOK(JoinContentsOf(nodes)[i], WithJoinGroups(were, keys, rows)[i], w)
    {
      assert JoinContentsOf(nodes)[i] == had[i].(group := Given<Leaf?>(null, neighbors, found, |found|, keys[i]));
      GivenLeaf(neighbors, rows, keys[i]);
    }
  }
}
