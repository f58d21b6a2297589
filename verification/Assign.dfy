/** The second loop of every loader: neighbours, in the order the edge query returned them, are
    handed to the nodes that the index names. Only one edge field is ever written. */
module Assign {
  import opened Wrappers
  import opened Relational
  import opened Joins
  import opened Index
  import opened Entities

  /** The first position of an id that an index does not know. */
  function FirstUnknown(ids: seq<int>, known: set<int>): (at: nat)
    ensures at <= |ids|
    ensures at < |ids| ==> ids[at] !in known
    ensures forall i | 0 <= i < at :: ids[i] in known
  {
    if ids == [] then 0
    else
      var before := FirstUnknown(ids[..|ids| - 1], known);
      if before < |ids| - 1 || ids[|ids| - 1] !in known then before else |ids|
  }

  ghost predicate Distinct<T>(items: seq<T>) {
    forall i, j | 0 <= i < j < |items| :: items[i] != items[j]
  }

  ghost function LeafIDs(leaves: seq<Leaf>): seq<int> {
    seq(|leaves|, i requires 0 <= i < |leaves| => leaves[i].row.id)
  }

  ghost function AccountIDs(accounts: seq<Account>): seq<int>
    reads accounts
  {
    seq(|accounts|, i requires 0 <= i < |accounts| reads accounts => accounts[i].id)
  }

  /** What a node ends up with after the first n neighbours: the last of them that has its key, or
      else what it had. */
  function Given<T>(had: T, neighbors: seq<T>, ids: seq<int>, n: nat, key: Option<int>): T
    requires n <= |ids| == |neighbors|
  {
    var at := if key.None? then -1 else LastIndex(ids[..n], key.value);
    if at < 0 then had else neighbors[at]
  }

  lemma GivenStep<T>(had: T, neighbors: seq<T>, ids: seq<int>, n: nat, key: Option<int>)
    requires n < |ids| == |neighbors|
    ensures Given(had, neighbors, ids, n + 1, key) ==
            if key == Some(ids[n]) then neighbors[n] else Given(had, neighbors, ids, n, key)
  {
    assert ids[..n + 1][..n] == ids[..n];
  }

  lemma ListsPartition<N>(nodes: seq<N>, keys: seq<Option<int>>, k: int)
    requires |nodes| == |keys| && Distinct(nodes)
    ensures forall x | x in WithKey(nodes, keys, k) :: x in nodes
    ensures forall i | 0 <= i < |nodes| :: nodes[i] in WithKey(nodes, keys, k) <==> keys[i] == Some(k)
  {
    forall x | x in WithKey(nodes, keys, k) ensures x in nodes { WithKeySound(nodes, keys, k, x); }
    forall i | 0 <= i < |nodes| ensures nodes[i] in WithKey(nodes, keys, k) <==> keys[i] == Some(k) {
      WithKeyPartitions(nodes, keys, i, k);
    }
  }

  method SetParent(list: seq<Account>, n: Account, ghost nodes: seq<Account>, ghost keys: seq<Option<int>>,
                   ghost key: int, ghost scope: set<Account>)
    requires |keys| == |nodes| && Distinct(nodes) && list == WithKey(nodes, keys, key) && scope == set x | x in nodes
    modifies scope`parent
    ensures forall i | 0 <= i < |nodes| :: nodes[i].parent == if keys[i] == Some(key) then n else old(nodes[i].parent)
  {
    ListsPartition(nodes, keys, key);
    for j := 0 to |list|
      invariant forall x | x in scope :: x.parent == if x in list[..j] then n else old(x.parent)
    {
      assert list[j] in list;
      list[j].parent := n;
    }
    assert list[..|list|] == list;
  }

  /** Many-to-one: every node whose key is among the neighbours before the first unknown one gets
      the last such neighbour; every other node keeps what it had. */
  method AssignParent(nodes: seq<Account>, ghost keys: seq<Option<int>>, ghost ids: seq<int>,
                      nodeids: map<int, seq<Account>>, neighbors: seq<Account>, ghost scope: set<Account>)
    returns (err: Option<Error>)
    requires |keys| == |nodes| && Distinct(nodes) && Indexed(nodes, keys, ids, nodeids)
    requires scope == set x | x in nodes
    modifies scope`parent
    ensures
      var found := old(AccountIDs(neighbors));
      var stop := FirstUnknown(found, nodeids.Keys);
      && err == (if stop < |found| then Some(UnexpectedForeignKey(found[stop])) else None)
      && forall i | 0 <= i < |nodes| ::
           nodes[i].parent == Given(old(nodes[i].parent), neighbors, found, stop, keys[i])
  {
    ghost var found := AccountIDs(neighbors);
    ghost var had := seq(|nodes|, i requires 0 <= i < |nodes| reads scope => nodes[i].parent);
    ghost var stop := FirstUnknown(found, nodeids.Keys);
    for m := 0 to |neighbors|
      invariant m <= stop
      invariant forall i | 0 <= i < |nodes| ::
        nodes[i].parent == Given<Account?>(had[i], neighbors, found, m, keys[i])
    {
      var n := neighbors[m];
      assert n.id == found[m];
      if n.id !in nodeids {
        assert stop == m;
        return Some(UnexpectedForeignKey(n.id));
      }
      assert m < stop;
      var list := nodeids[n.id];
      SetParent(list, n, nodes, keys, n.id, scope);
      forall i | 0 <= i < |nodes| { GivenStep<Account?>(had[i], neighbors, found, m, keys[i]); }
    }
    return None;
  }

  method SetProxy(list: seq<Account>, n: Leaf, ghost nodes: seq<Account>, ghost keys: seq<Option<int>>, ghost key: int,
                  ghost scope: set<Account>)
    requires |keys| == |nodes| && Distinct(nodes) && list == WithKey(nodes, keys, key) && scope == set x | x in nodes
    modifies scope`proxy
    ensures forall i | 0 <= i < |nodes| :: nodes[i].proxy == if keys[i] == Some(key) then n else old(nodes[i].proxy)
  {
    ListsPartition(nodes, keys, key);
    for j := 0 to |list|
      invariant forall x | x in scope :: x.proxy == if x in list[..j] then n else old(x.proxy)
    {
      assert list[j] in list;
      list[j].proxy := n;
    }
    assert list[..|list|] == list;
  }

  method AssignProxy(nodes: seq<Account>, ghost keys: seq<Option<int>>, ghost ids: seq<int>,
                     nodeids: map<int, seq<Account>>, neighbors: seq<Leaf>, ghost scope: set<Account>)
    returns (err: Option<Error>)
    requires |keys| == |nodes| && Distinct(nodes) && Indexed(nodes, keys, ids, nodeids)
    requires scope == set x | x in nodes
    modifies scope`proxy
    ensures
      var found := LeafIDs(neighbors);
      var stop := FirstUnknown(found, nodeids.Keys);
      && err == (if stop < |found| then Some(UnexpectedForeignKey(found[stop])) else None)
      && forall i | 0 <= i < |nodes| ::
           nodes[i].proxy == Given(old(nodes[i].proxy), neighbors, found, stop, keys[i])
  {
    ghost var found := LeafIDs(neighbors);
    ghost var had := seq(|nodes|, i requires 0 <= i < |nodes| reads scope => nodes[i].proxy);
    ghost var stop := FirstUnknown(found, nodeids.Keys);
    for m := 0 to |neighbors|
      invariant m <= stop
      invariant forall i | 0 <= i < |nodes| ::
        nodes[i].proxy == Given<Leaf?>(had[i], neighbors, found, m, keys[i])
    {
      var n := neighbors[m];
      assert n.row.id == found[m];
      if n.row.id !in nodeids {
        assert stop == m;
        return Some(UnexpectedForeignKey(n.row.id));
      }
      assert m < stop;
      var list := nodeids[n.row.id];
      SetProxy(list, n, nodes, keys, n.row.id, scope);
      forall i | 0 <= i < |nodes| { GivenStep<Leaf?>(had[i], neighbors, found, m, keys[i]); }
    }
    return None;
  }

  method SetJoinAccount(list: seq<AccountGroup>, n: Account, ghost nodes: seq<AccountGroup>,
                        ghost keys: seq<Option<int>>, ghost key: int, ghost scope: set<AccountGroup>)
    requires |keys| == |nodes| && Distinct(nodes) && list == WithKey(nodes, keys, key) && scope == set x | x in nodes
    modifies scope`account
    ensures forall i | 0 <= i < |nodes| :: nodes[i].account == if keys[i] == Some(key) then n else old(nodes[i].account)
  {
    ListsPartition(nodes, keys, key);
    for j := 0 to |list|
      invariant forall x | x in scope :: x.account == if x in list[..j] then n else old(x.account)
    {
      assert list[j] in list;
      list[j].account := n;
    }
    assert list[..|list|] == list;
  }

  method AssignJoinAccount(nodes: seq<AccountGroup>, ghost keys: seq<Option<int>>, ghost ids: seq<int>,
                           nodeids: map<int, seq<AccountGroup>>, neighbors: seq<Account>,
                           ghost scope: set<AccountGroup>)
    returns (err: Option<Error>)
    requires |keys| == |nodes| && Distinct(nodes) && Indexed(nodes, keys, ids, nodeids)
    requires scope == set x | x in nodes
    modifies scope`account
    ensures
      var found := old(AccountIDs(neighbors));
      var stop := FirstUnknown(found, nodeids.Keys);
      && err == (if stop < |found| then Some(UnexpectedForeignKey(found[stop])) else None)
      && forall i | 0 <= i < |nodes| ::
           nodes[i].account == Given(old(nodes[i].account), neighbors, found, stop, keys[i])
  {
    ghost var found := AccountIDs(neighbors);
    ghost var had := seq(|nodes|, i requires 0 <= i < |nodes| reads scope => nodes[i].account);
    ghost var stop := FirstUnknown(found, nodeids.Keys);
    for m := 0 to |neighbors|
      invariant m <= stop
      invariant forall i | 0 <= i < |nodes| ::
        nodes[i].account == Given<Account?>(had[i], neighbors, found, m, keys[i])
    {
      var n := neighbors[m];
      assert n.id == found[m];
      if n.id !in nodeids {
        assert stop == m;
        return Some(UnexpectedForeignKey(n.id));
      }
      assert m < stop;
      var list := nodeids[n.id];
      SetJoinAccount(list, n, nodes, keys, n.id, scope);
      forall i | 0 <= i < |nodes| { GivenStep<Account?>(had[i], neighbors, found, m, keys[i]); }
    }
    return None;
  }

  method SetJoinGroup(list: seq<AccountGroup>, n: Leaf, ghost nodes: seq<AccountGroup>, ghost keys: seq<Option<int>>,
                      ghost key: int, ghost scope: set<AccountGroup>)
    requires |keys| == |nodes| && Distinct(nodes) && list == WithKey(nodes, keys, key) && scope == set x | x in nodes
    modifies scope`group
    ensures forall i | 0 <= i < |nodes| :: nodes[i].group == if keys[i] == Some(key) then n else old(nodes[i].group)
  {
    ListsPartition(nodes, keys, key);
    for j := 0 to |list|
      invariant forall x | x in scope :: x.group == if x in list[..j] then n else old(x.group)
    {
      assert list[j] in list;
      list[j].group := n;
    }
    assert list[..|list|] == list;
  }

  method AssignJoinGroup(nodes: seq<AccountGroup>, ghost keys: seq<Option<int>>, ghost ids: seq<int>,
                         nodeids: map<int, seq<AccountGroup>>, neighbors: seq<Leaf>, ghost scope: set<AccountGroup>)
    returns (err: Option<Error>)
    requires |keys| == |nodes| && Distinct(nodes) && Indexed(nodes, keys, ids, nodeids)
    requires scope == set x | x in nodes
    modifies scope`group
    ensures
      var found := LeafIDs(neighbors);
      var stop := FirstUnknown(found, nodeids.Keys);
      && err == (if stop < |found| then Some(UnexpectedForeignKey(found[stop])) else None)
      && forall i | 0 <= i < |nodes| ::
           nodes[i].group == Given(old(nodes[i].group), neighbors, found, stop, keys[i])
  {
    ghost var found := LeafIDs(neighbors);
    ghost var had := seq(|nodes|, i requires 0 <= i < |nodes| reads scope => nodes[i].group);
    ghost var stop := FirstUnknown(found, nodeids.Keys);
    for m := 0 to |neighbors|
      invariant m <= stop
      invariant forall i | 0 <= i < |nodes| ::
        nodes[i].group == Given<Leaf?>(had[i], neighbors, found, m, keys[i])
    {
      var n := neighbors[m];
      assert n.row.id == found[m];
      if n.row.id !in nodeids {
        assert stop == m;
        return Some(UnexpectedForeignKey(n.row.id));
      }
      assert m < stop;
      var list := nodeids[n.row.id];
      SetJoinGroup(list, n, nodes, keys, n.row.id, scope);
      forall i | 0 <= i < |nodes| { GivenStep<Leaf?>(had[i], neighbors, found, m, keys[i]); }
    }
    return None;
  }

  // ----- one-to-many -----

  /** The first position whose key is nil or not indexed. */
  function FirstBadKey(keys: seq<Option<int>>, known: set<int>): (at: nat)
    ensures at <= |keys|
    ensures at < |keys| ==> keys[at].None? || keys[at].value !in known
    ensures forall i | 0 <= i < at :: keys[i].Some? && keys[i].value in known
  {
    if keys == [] then 0
    else
      var before := FirstBadKey(keys[..|keys| - 1], known);
      var last := keys[|keys| - 1];
      if before < |keys| - 1 || last.None? || last.value !in known then before else |keys|
  }

  ghost function ParentKeysOf(accounts: seq<Account>): seq<Option<int>>
    reads accounts
  {
    seq(|accounts|, i requires 0 <= i < |accounts| reads accounts => accounts[i].parentAccountID)
  }

  ghost function JoinKeysOf(joins: seq<AccountGroup>): seq<Option<int>>
    reads joins
  {
    seq(|joins|, i requires 0 <= i < |joins| reads joins => Some(joins[i].accountID))
  }

  /** The object that an index by id answers with: of several objects with one id, the last. */
  ghost predicate IndexedByID(nodes: seq<Account>, nodeids: map<int, Account>)
    reads nodes
  {
    && (forall k :: k in nodeids <==> k in AccountIDs(nodes))
    && (forall k | k in nodeids :: nodeids[k] == nodes[LastIndex(AccountIDs(nodes), k)])
  }

  method IndexChildren(nodes: seq<Account>, ghost scope: set<Account>)
    returns (fks: seq<int>, nodeids: map<int, Account>)
    requires scope == set x | x in nodes
    modifies scope`children
    ensures fks == AccountIDs(nodes) && IndexedByID(nodes, nodeids)
    ensures forall x | x in scope :: x.children == []
  {
    fks, nodeids := [], map[];
    for i := 0 to |nodes|
      invariant fks == AccountIDs(nodes)[..i]
      invariant forall k :: k in nodeids <==> k in fks
      invariant forall k | k in nodeids :: nodeids[k] == nodes[LastIndex(fks, k)]
      invariant forall j | 0 <= j < i :: nodes[j].children == []
    {
      assert nodes[i] in nodes;
      assert (fks + [nodes[i].id])[..i] == fks;
      fks := fks + [nodes[i].id];
      nodeids := nodeids[nodes[i].id := nodes[i]];
      nodes[i].children := [];
    }
    assert fks == AccountIDs(nodes);
  }

  /** One-to-many: before the first neighbour whose key is nil or unknown, every neighbour is
      appended, in order, to the node that the index answers for its key. */
  method AssignChildren(nodeids: map<int, Account>, neighbors: seq<Account>, ghost scope: set<Account>)
    returns (err: Option<Error>)
    requires forall k | k in nodeids :: nodeids[k] in scope
    requires forall k, l | k in nodeids && l in nodeids && k != l :: nodeids[k] != nodeids[l]
    modifies scope`children
    ensures
      var keys := old(ParentKeysOf(neighbors));
      var stop := FirstBadKey(keys, nodeids.Keys);
      && err == (if stop == |keys| then None
                 else if keys[stop].None? then Some(NilForeignKey(neighbors[stop].id))
                 else Some(UnexpectedReference(keys[stop].value)))
      && (forall k | k in nodeids ::
            nodeids[k].children == old(nodeids[k].children) + WithKey(neighbors[..stop], keys[..stop], k))
      && (forall x | x in scope && x !in nodeids.Values :: x.children == old(x.children))
  {
    ghost var keys := ParentKeysOf(neighbors);
    ghost var stop := FirstBadKey(keys, nodeids.Keys);
    for m := 0 to |neighbors|
      invariant m <= stop
      invariant forall k | k in nodeids ::
        nodeids[k].children == old(nodeids[k].children) + WithKey(neighbors[..m], keys[..m], k)
      invariant forall x | x in scope && x !in nodeids.Values :: x.children == old(x.children)
    {
      var n := neighbors[m];
      var fk := n.parentAccountID;
      assert fk == keys[m];
      if fk.None? {
        assert stop == m;
        return Some(NilForeignKey(n.id));
      }
      var key := fk.value;
      if key !in nodeids {
        assert stop == m;
        return Some(UnexpectedReference(key));
      }
      assert m < stop;
      var node := nodeids[key];
      node.children := node.children + [n];
      forall k | k in nodeids
        ensures nodeids[k].children == old(nodeids[k].children) + WithKey(neighbors[..m + 1], keys[..m + 1], k)
      {
        WithKeyStep(neighbors, keys, m, k);
        if k != key { assert nodeids[k] != node; }
      }
    }
    return None;
  }

  method IndexAccountGroups(nodes: seq<Account>, ghost scope: set<Account>)
    returns (fks: seq<int>, nodeids: map<int, Account>)
    requires scope == set x | x in nodes
    modifies scope`accountGroups
    ensures fks == AccountIDs(nodes) && IndexedByID(nodes, nodeids)
    ensures forall x | x in scope :: x.accountGroups == []
  {
    fks, nodeids := [], map[];
    for i := 0 to |nodes|
      invariant fks == AccountIDs(nodes)[..i]
      invariant forall k :: k in nodeids <==> k in fks
      invariant forall k | k in nodeids :: nodeids[k] == nodes[LastIndex(fks, k)]
      invariant forall j | 0 <= j < i :: nodes[j].accountGroups == []
    {
      assert nodes[i] in nodes;
      assert (fks + [nodes[i].id])[..i] == fks;
      fks := fks + [nodes[i].id];
      nodeids := nodeids[nodes[i].id := nodes[i]];
      nodes[i].accountGroups := [];
    }
    assert fks == AccountIDs(nodes);
  }

  /** The same for the join table, whose key is never nil. */
  method AssignAccountGroups(nodeids: map<int, Account>, neighbors: seq<AccountGroup>, ghost scope: set<Account>)
    returns (err: Option<Error>)
    requires forall k | k in nodeids :: nodeids[k] in scope
    requires forall k, l | k in nodeids && l in nodeids && k != l :: nodeids[k] != nodeids[l]
    modifies scope`accountGroups
    ensures
      var keys := old(JoinKeysOf(neighbors));
      var stop := FirstBadKey(keys, nodeids.Keys);
      && err == (if stop == |keys| then None else Some(UnexpectedReference(neighbors[stop].accountID)))
      && (forall k | k in nodeids ::
            nodeids[k].accountGroups == old(nodeids[k].accountGroups) + WithKey(neighbors[..stop], keys[..stop], k))
      && (forall x | x in scope && x !in nodeids.Values :: x.accountGroups == old(x.accountGroups))
  {
    ghost var keys := JoinKeysOf(neighbors);
    ghost var stop := FirstBadKey(keys, nodeids.Keys);
    for m := 0 to |neighbors|
      invariant m <= stop
      invariant forall k | k in nodeids ::
        nodeids[k].accountGroups == old(nodeids[k].accountGroups) + WithKey(neighbors[..m], keys[..m], k)
      invariant forall x | x in scope && x !in nodeids.Values :: x.accountGroups == old(x.accountGroups)
    {
      var n := neighbors[m];
      var fk := n.accountID;
      assert Some(fk) == keys[m];
      if fk !in nodeids {
        assert stop == m;
        return Some(UnexpectedReference(fk));
      }
      assert m < stop;
      var node := nodeids[fk];
      node.accountGroups := node.accountGroups + [n];
      forall k | k in nodeids
        ensures nodeids[k].accountGroups ==
                old(nodeids[k].accountGroups) + WithKey(neighbors[..m + 1], keys[..m + 1], k)
      {
        WithKeyStep(neighbors, keys, m, k);
        if k != fk { assert nodeids[k] != node; }
      }
    }
    return None;
  }

  /** The object that an index by id answers with for the id of node i is node i itself. */
  ghost predicate Answers(nodes: seq<Account>, ids: seq<int>, i: nat)
    requires i < |nodes| == |ids|
  {
    var at := LastIndex(ids, ids[i]);
    0 <= at && nodes[at] == nodes[i]
  }

  /** An index by id, without the heap: `ids` are the ids of the nodes, so the same node has the same id. */
  ghost predicate IndexOf(nodes: seq<Account>, ids: seq<int>, nodeids: map<int, Account>)
    requires |nodes| == |ids|
  {
    && (forall k :: k in nodeids <==> k in ids)
    && (forall k | k in nodeids :: nodeids[k] == nodes[LastIndex(ids, k)])
    && (forall i, j | 0 <= i < |nodes| && 0 <= j < |nodes| && nodes[i] == nodes[j] :: ids[i] == ids[j])
  }

  lemma IndexOfAnswers(nodes: seq<Account>, ids: seq<int>, nodeids: map<int, Account>, i: nat)
    requires |nodes| == |ids| && IndexOf(nodes, ids, nodeids) && i < |nodes|
    ensures ids[i] in nodeids
    ensures Answers(nodes, ids, i) <==> nodeids[ids[i]] == nodes[i]
    ensures !Answers(nodes, ids, i) ==> nodes[i] !in nodeids.Values
  {
    assert ids[i] in ids;
    forall k | k in nodeids && nodeids[k] == nodes[i] ensures k == ids[i] {
      var at := LastIndex(ids, k);
      assert nodes[at] == nodes[i] && ids[at] == k;
    }
  }

  method IndexForHandOut(nodes: seq<Account>, ghost ids: seq<int>, ghost scope: set<Account>)
    returns (nodeids: map<int, Account>)
    requires ids == AccountIDs(nodes) && scope == set x | x in nodes
    modifies scope`children
    ensures IndexOf(nodes, ids, nodeids)
    ensures forall k | k in nodeids :: nodeids[k] in scope
    ensures forall k, l | k in nodeids && l in nodeids && k != l :: nodeids[k] != nodeids[l]
    ensures forall x | x in scope :: x.children == []
  {
    var fks;
    fks, nodeids := IndexChildren(nodes, scope);
    assert AccountIDs(nodes) == ids;
    forall k | k in nodeids ensures nodeids[k] in scope { assert nodes[LastIndex(ids, k)] in nodes; }
    forall k, l | k in nodeids && l in nodeids && k != l ensures nodeids[k] != nodeids[l] {
      assert ids[LastIndex(ids, k)] == k && ids[LastIndex(ids, l)] == l;
    }
  }

  /** Both loops of a one-to-many loader on any list of nodes: of several nodes with one id, the last
      gets all the neighbours that carry it, in order, and the earlier ones get the empty list. */
  method HandOutByID(nodes: seq<Account>, neighbors: seq<Account>, ghost scope: set<Account>)
    returns (err: Option<Error>)
    requires scope == set x | x in nodes
    modifies scope`children
    ensures
      var ids, keys := old(AccountIDs(nodes)), old(ParentKeysOf(neighbors));
      var stop := FirstBadKey(keys, set k | k in ids);
      && err == (if stop == |keys| then None
                 else if keys[stop].None? then Some(NilForeignKey(neighbors[stop].id))
                 else Some(UnexpectedReference(keys[stop].value)))
      && forall i | 0 <= i < |nodes| ::
           nodes[i].children == if Answers(nodes, ids, i) then WithKey(neighbors[..stop], keys[..stop], ids[i]) else []
  {
    ghost var ids, keys := AccountIDs(nodes), ParentKeysOf(neighbors);
    ghost var stop := FirstBadKey(keys, set k | k in ids);
    var nodeids := IndexForHandOut(nodes, ids, scope);
    assert ParentKeysOf(neighbors) == keys;
    err := AssignChildren(nodeids, neighbors, scope);
    assert nodeids.Keys == set k | k in ids;
    forall i | 0 <= i < |nodes|
      ensures nodes[i].children ==
              if Answers(nodes, ids, i) then WithKey(neighbors[..stop], keys[..stop], ids[i]) else []
    {
      IndexOfAnswers(nodes, ids, nodeids, i);
      assert nodes[i] in scope;
    }
  }
}
