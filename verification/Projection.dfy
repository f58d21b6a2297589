/** Selecting columns never changes which objects are joined: whatever columns a query and its edge
    queries select, the related ids are those of full selections. */
module Projection {
  import opened Wrappers
  import opened Relational
  import opened Schema
  import opened Joins
  import opened Index
  import opened Queries
  import opened Stages
  import opened NestedLoop

  /** The ids of a loaded tree, without its columns. */
  datatype Skeleton = Skeleton(
    id: int,
    loaded: Loaded,
    groups: seq<int>,
    proxy: Option<int>,
    parent: Option<Skeleton>,
    children: seq<Skeleton>,
    accountGroups: seq<JoinSkeleton>)

  datatype JoinSkeleton = JoinSkeleton(loaded: JoinLoaded, account: Option<Skeleton>, group: Option<int>)

  function SkeletonOf(t: AccountTree): Skeleton {
    Skeleton(
      t.row.id, t.loaded, Map(GroupID, t.groups), LeafIDOf(t.proxy),
      if t.parent.None? then None else Some(SkeletonOf(t.parent.value)),
      seq(|t.children|, i requires 0 <= i < |t.children| => SkeletonOf(t.children[i])),
      seq(|t.accountGroups|, i requires 0 <= i < |t.accountGroups| => JoinSkeletonOf(t.accountGroups[i])))
  }

  function JoinSkeletonOf(t: JoinTree): JoinSkeleton {
    JoinSkeleton(t.loaded, if t.account.None? then None else Some(SkeletonOf(t.account.value)), LeafIDOf(t.group))
  }

  function LeafIDOf(leaf: Option<LeafRow>): Option<int> {
    if leaf.None? then None else Some(leaf.value.id)
  }

  /** The query with full selections at every level. */
  function Full(q: AccountQ): AccountQ {
    AccountQ(
      [], q.criteria, FullLeaf(q.withGroups), FullLeaf(q.withProxy),
      if q.withParent.None? then None else Some(Full(q.withParent.value)),
      if q.withChildren.None? then None else Some(Full(q.withChildren.value)),
      if q.withAccountGroups.None? then None else Some(FullJoin(q.withAccountGroups.value)))
  }

  function FullJoin(q: JoinQ): JoinQ {
    JoinQ([], q.criteria, if q.withAccount.None? then None else Some(Full(q.withAccount.value)), FullLeaf(q.withGroup))
  }

  function FullLeaf(q: Option<LeafQ>): Option<LeafQ> {
    if q.None? then None else Some(q.value.(fields := []))
  }

  // ----- leaves -----

  lemma SamePlace<A, B>(xs: seq<A>, ys: seq<B>, x: A -> int, y: B -> int, k: int) returns (at: nat)
    requires |xs| == |ys| && forall i | 0 <= i < |xs| :: x(xs[i]) == y(ys[i])
    ensures FindLast(xs, x, k).Some? <==> FindLast(ys, y, k).Some?
    ensures FindLast(xs, x, k).Some? ==>
      at < |xs| && FindLast(xs, x, k) == Some(xs[at]) && FindLast(ys, y, k) == Some(ys[at])
  {
    assert Map(x, xs) == Map(y, ys);
    var last := LastIndex(Map(x, xs), k);
    at := if last < 0 then 0 else last;
  }

  lemma SameLeaf(table: seq<LeafRow>, q: LeafQ, k: int)
    ensures LeafIDOf(FindLast(Leaves(table, q), LeafKey, k)) ==
            LeafIDOf(FindLast(Leaves(table, q.(fields := [])), LeafKey, k))
  {
    LeafColumnsKeep(q);
    LeafColumnsKeep(q.(fields := []));
    var at := SamePlace(Leaves(table, q), Leaves(table, q.(fields := [])), LeafKey, LeafKey, k);
  }

  ghost predicate SameJoins(a: seq<JoinRow>, b: seq<JoinRow>) {
    |a| == |b| && forall i | 0 <= i < |a| :: a[i].accountID == b[i].accountID && a[i].group.id == b[i].group.id
  }

  lemma {:induction false} SameFirsts(a: seq<JoinRow>, b: seq<JoinRow>)
    requires SameJoins(a, b)
    ensures |Firsts(a)| == |Firsts(b)| && forall i | 0 <= i < |Firsts(a)| :: Firsts(a)[i].id == Firsts(b)[i].id
  {
    if a == [] {
    } else {
      SameFirsts(a[..|a| - 1], b[..|b| - 1]);
      var p, q, id := Firsts(a[..|a| - 1]), Firsts(b[..|b| - 1]), a[|a| - 1].group.id;
      assert Mentions(p, id) <==> Mentions(q, id);
    }
  }

  lemma MapCons<A, B>(f: A -> B, x: A, xs: seq<A>)
    ensures Map(f, [x] + xs) == [f(x)] + Map(f, xs)
  {
    var all := [x] + xs;
    forall i | 0 <= i < |all| ensures Map(f, all)[i] == ([f(x)] + Map(f, xs))[i] {
      assert i > 0 ==> all[i] == xs[i - 1];
    }
  }

  lemma {:induction false} SameKept(p: LeafRow -> bool, q: LeafRow -> bool, a: seq<LeafRow>, b: seq<LeafRow>)
    requires |a| == |b| && forall i | 0 <= i < |a| :: a[i].id == b[i].id && p(a[i]) == q(b[i])
    ensures Map(GroupID, Keep(p, a)) == Map(GroupID, Keep(q, b))
  {
    if a == [] {
    } else {
      SameKept(p, q, a[1..], b[1..]);
      var x, y := Keep(p, a[1..]), Keep(q, b[1..]);
      if p(a[0]) {
        MapCons(GroupID, a[0], x);
        MapCons(GroupID, b[0], y);
      } else {
        assert [] + x == x && [] + y == y;
      }
    }
  }

  lemma SameGroups(db: Snapshot, q: LeafQ, ids: seq<int>, id: int)
    ensures Map(GroupID, GroupsFor(GroupStream(db, q, ids), id)) ==
            Map(GroupID, GroupsFor(GroupStream(db, q.(fields := []), ids), id))
  {
    var a, b := GroupStream(db, q, ids), GroupStream(db, q.(fields := []), ids);
    LeafColumnsKeep(q);
    LeafColumnsKeep(q.(fields := []));
    assert SameJoins(a, b);
    SameFirsts(a, b);
    forall g ensures Joined(a, id, g) <==> Joined(b, id, g) {}
    SameKept((g: LeafRow) => Joined(a, id, g.id), (g: LeafRow) => Joined(b, id, g.id), Firsts(a), Firsts(b));
  }

  // ----- trees -----

  lemma SameKeys(db: Snapshot, q: AccountQ, i: nat)
    requires i < |ScannedAccounts(db, q)|
    ensures |ScannedAccounts(db, Full(q))| == |ScannedAccounts(db, q)|
    ensures
      var row, wide := ScannedAccounts(db, q)[i], ScannedAccounts(db, Full(q))[i];
      && row.id == wide.id
      && (q.withProxy.Some? ==> row.proxyID == wide.proxyID)
      && (q.withParent.Some? ==> row.parentAccountID == wide.parentAccountID)
  {
    AccountColumnsKeep(q);
    AccountColumnsKeep(Full(q));
  }

  /** Two selections of one batch have the same ids, and the same keys where an edge needs them. */
  lemma SameBatch(db: Snapshot, q: AccountQ)
    ensures
      var batch, full := ScannedAccounts(db, q), ScannedAccounts(db, Full(q));
      && |batch| == |full| && IDs(batch) == IDs(full)
      && (q.withProxy.Some? ==> ProxyKeys(batch) == ProxyKeys(full))
      && (q.withParent.Some? ==> ParentKeys(batch) == ParentKeys(full))
  {
    var batch, full := ScannedAccounts(db, q), ScannedAccounts(db, Full(q));
    forall i | 0 <= i < |batch|
      ensures IDs(batch)[i] == IDs(full)[i]
      ensures q.withProxy.Some? ==> ProxyKeys(batch)[i] == ProxyKeys(full)[i]
      ensures q.withParent.Some? ==> ParentKeys(batch)[i] == ParentKeys(full)[i]
    {
      SameKeys(db, q, i);
    }
  }

  lemma SameFound(db: Snapshot, q: AccountQ, k: int)
    ensures
      var a, b := FindLast(Accounts(db, q), TreeID, k), FindLast(Accounts(db, Full(q)), TreeID, k);
      (a.Some? <==> b.Some?) && (a.Some? ==> SkeletonOf(a.value) == SkeletonOf(b.value))
    decreases Height(q), 2
  {
    SameSkeletons(db, q);
    var xs, ys := Accounts(db, q), Accounts(db, Full(q));
    forall i | 0 <= i < |xs|
      ensures TreeID(xs[i]) == TreeID(ys[i])
    {
      assert SkeletonOf(xs[i]).id == SkeletonOf(ys[i]).id;
    }
    var at := SamePlace(xs, ys, TreeID, TreeID, k);
  }

  /** Picking by key picks at the same positions in both selections. */
  lemma SamePicks(xs: seq<AccountTree>, ys: seq<AccountTree>, id: int)
    requires |xs| == |ys|
    requires forall i | 0 <= i < |xs| :: SkeletonOf(xs[i]) == SkeletonOf(ys[i]) && ParentKey(xs[i]) == ParentKey(ys[i])
    ensures |ChildrenOf(id, xs)| == |ChildrenOf(id, ys)|
    ensures forall i | 0 <= i < |ChildrenOf(id, xs)| ::
      SkeletonOf(ChildrenOf(id, xs)[i]) == SkeletonOf(ChildrenOf(id, ys)[i])
  {
    assert Map(ParentKey, xs) == Map(ParentKey, ys);
    var at := WithKeyRelated(xs, ys, Map(ParentKey, xs), id);
  }

  lemma SameChildren(db: Snapshot, sub: AccountQ, ids: seq<int>, id: int)
    ensures
      var a := ChildrenOf(id, Accounts(db, Where(KeyedChild(sub), ParentIn(ids))));
      var b := ChildrenOf(id, Accounts(db, Where(KeyedChild(Full(sub)), ParentIn(ids))));
      |a| == |b| && forall i | 0 <= i < |a| :: SkeletonOf(a[i]) == SkeletonOf(b[i])
    decreases Height(sub), 2
  {
    var p := Where(KeyedChild(sub), ParentIn(ids));
    assert Full(p) == Where(KeyedChild(Full(sub)), ParentIn(ids));
    SameSkeletons(db, p);
    SameParentKeys(db, p);
    SamePicks(Accounts(db, p), Accounts(db, Full(p)), id);
  }

  lemma SameParentKeys(db: Snapshot, q: AccountQ)
    requires q.fields == [] || ParentAccountID in q.fields
    ensures |Accounts(db, q)| == |Accounts(db, Full(q))|
    ensures forall i | 0 <= i < |Accounts(db, q)| ::
      ParentKey(Accounts(db, q)[i]) == ParentKey(Accounts(db, Full(q))[i])
  {
    AccountColumnsKeep(q);
    AccountColumnsKeep(Full(q));
    AccountsRows(db, q);
    AccountsRows(db, Full(q));
  }

  lemma SameJoinPicks(xs: seq<JoinTree>, ys: seq<JoinTree>, id: int)
    requires |xs| == |ys|
    requires forall i | 0 <= i < |xs| ::
      JoinSkeletonOf(xs[i]) == JoinSkeletonOf(ys[i]) && JoinKey(xs[i]) == JoinKey(ys[i])
    ensures |JoinsOf(id, xs)| == |JoinsOf(id, ys)|
    ensures forall i | 0 <= i < |JoinsOf(id, xs)| ::
      JoinSkeletonOf(JoinsOf(id, xs)[i]) == JoinSkeletonOf(JoinsOf(id, ys)[i])
  {
    assert Map(JoinKey, xs) == Map(JoinKey, ys);
    var at := WithKeyRelated(xs, ys, Map(JoinKey, xs), id);
  }

  lemma SameJoinKeys(db: Snapshot, q: JoinQ)
    requires q.fields == [] || AccountIDColumn in q.fields
    ensures |JoinNodes(db, q)| == |JoinNodes(db, FullJoin(q))|
    ensures forall i | 0 <= i < |JoinNodes(db, q)| ::
      JoinKey(JoinNodes(db, q)[i]) == JoinKey(JoinNodes(db, FullJoin(q))[i])
  {
    JoinNodesRows(db, q);
    JoinNodesRows(db, FullJoin(q));
  }

  lemma SameJoinRows(db: Snapshot, sub: JoinQ, ids: seq<int>, id: int)
    ensures
      var a := JoinsOf(id, JoinNodes(db, WhereJoin(KeyedJoin(sub), AccountIn(ids))));
      var b := JoinsOf(id, JoinNodes(db, WhereJoin(KeyedJoin(FullJoin(sub)), AccountIn(ids))));
      |a| == |b| && forall i | 0 <= i < |a| :: JoinSkeletonOf(a[i]) == JoinSkeletonOf(b[i])
    decreases JoinHeight(sub), 2
  {
    var p := WhereJoin(KeyedJoin(sub), AccountIn(ids));
    assert FullJoin(p) == WhereJoin(KeyedJoin(FullJoin(sub)), AccountIn(ids));
    SameJoinSkeletons(db, p);
    SameJoinKeys(db, p);
    SameJoinPicks(JoinNodes(db, p), JoinNodes(db, FullJoin(p)), id);
  }

  lemma SameLeafEdges(db: Snapshot, q: AccountQ, i: nat)
    requires i < |ScannedAccounts(db, q)|
    ensures |Accounts(db, q)| == |Accounts(db, Full(q))| == |ScannedAccounts(db, q)|
    ensures
      var a, b := Accounts(db, q)[i], Accounts(db, Full(q))[i];
      && a.row.id == b.row.id && a.loaded == b.loaded
      && Map(GroupID, a.groups) == Map(GroupID, b.groups) && LeafIDOf(a.proxy) == LeafIDOf(b.proxy)
  {
    var batch := ScannedAccounts(db, q);
    SameBatch(db, q);
    AccountColumnsKeep(q);
    AccountColumnsKeep(Full(q));
    AccountsRows(db, q);
    AccountsRows(db, Full(q));
    assert Accounts(db, q)[i] == AccountNode(db, q, batch, batch[i]);
    if q.withGroups.Some? { SameGroups(db, q.withGroups.value, IDs(batch), batch[i].id); }
    if q.withProxy.Some? && batch[i].proxyID.Some? {
      SameLeaf(db.proxies, ProxyQuery(q, batch), batch[i].proxyID.value);
    }
  }

  lemma TreeAt(db: Snapshot, q: AccountQ, i: nat)
    requires i < |ScannedAccounts(db, q)|
    ensures |Accounts(db, q)| == |ScannedAccounts(db, q)|
    ensures Accounts(db, q)[i] == AccountNode(db, q, ScannedAccounts(db, q), ScannedAccounts(db, q)[i])
  {
  }

  lemma SameParent(db: Snapshot, q: AccountQ, batch: seq<AccountRow>, row: AccountRow, full: seq<AccountRow>,
                   wide: AccountRow)
    requires q.withParent.Some? ==> ParentKeys(batch) == ParentKeys(full) && row.parentAccountID == wide.parentAccountID
    ensures SkeletonOf(AccountNode(db, q, batch, row)).parent == SkeletonOf(AccountNode(db, Full(q), full, wide)).parent
    decreases Height(q), 0
  {
    if q.withParent.Some? && row.parentAccountID.Some? {
      assert Full(ParentQuery(q, batch)) == ParentQuery(Full(q), full);
      SameFound(db, ParentQuery(q, batch), row.parentAccountID.value);
    }
  }

  lemma SameChildLists(db: Snapshot, q: AccountQ, batch: seq<AccountRow>, row: AccountRow, full: seq<AccountRow>,
                       wide: AccountRow)
    requires IDs(batch) == IDs(full) && row.id == wide.id
    ensures SkeletonOf(AccountNode(db, q, batch, row)).children ==
            SkeletonOf(AccountNode(db, Full(q), full, wide)).children
    decreases Height(q), 0
  {
    if q.withChildren.Some? { SameChildren(db, q.withChildren.value, IDs(batch), row.id); }
  }

  lemma SameJoinLists(db: Snapshot, q: AccountQ, batch: seq<AccountRow>, row: AccountRow, full: seq<AccountRow>,
                      wide: AccountRow)
    requires IDs(batch) == IDs(full) && row.id == wide.id
    ensures SkeletonOf(AccountNode(db, q, batch, row)).accountGroups ==
            SkeletonOf(AccountNode(db, Full(q), full, wide)).accountGroups
    decreases Height(q), 0
  {
    if q.withAccountGroups.Some? { SameJoinRows(db, q.withAccountGroups.value, IDs(batch), row.id); }
  }

  /** Whatever columns a query and its edge queries select, in any order and with repeats, the loaded
      trees relate the same ids as full selections do. */
  lemma {:induction false} SameSkeletons(db: Snapshot, q: AccountQ)
    ensures |Accounts(db, q)| == |Accounts(db, Full(q))|
    ensures forall i | 0 <= i < |Accounts(db, q)| ::
      SkeletonOf(Accounts(db, q)[i]) == SkeletonOf(Accounts(db, Full(q))[i])
    decreases Height(q), 1
  {
    var batch, full := ScannedAccounts(db, q), ScannedAccounts(db, Full(q));
    SameBatch(db, q);
    forall i | 0 <= i < |batch| ensures SkeletonOf(Accounts(db, q)[i]) == SkeletonOf(Accounts(db, Full(q))[i]) {
      SameKeys(db, q, i);
      SameLeafEdges(db, q, i);
      SameParent(db, q, batch, batch[i], full, full[i]);
      SameChildLists(db, q, batch, batch[i], full, full[i]);
      SameJoinLists(db, q, batch, batch[i], full, full[i]);
      TreeAt(db, q, i);
      TreeAt(db, Full(q), i);
    }
  }

  lemma {:induction false} SameJoinSkeletons(db: Snapshot, q: JoinQ)
    ensures |JoinNodes(db, q)| == |JoinNodes(db, FullJoin(q))|
    ensures forall i | 0 <= i < |JoinNodes(db, q)| ::
      JoinSkeletonOf(JoinNodes(db, q)[i]) == JoinSkeletonOf(JoinNodes(db, FullJoin(q))[i])
    decreases JoinHeight(q), 1
  {
    var batch, full := ScannedJoins(db, q), ScannedJoins(db, FullJoin(q));
    SameJoinBatch(db, q);
    forall i | 0 <= i < |batch|
      ensures JoinSkeletonOf(JoinNodes(db, q)[i]) == JoinSkeletonOf(JoinNodes(db, FullJoin(q))[i])
    {
      SameJoinAccount(db, q, batch, batch[i], full, full[i]);
      SameJoinGroup(db, q, i);
    }
  }

  lemma SameJoinAccount(db: Snapshot, q: JoinQ, batch: seq<JoinTableRow>, row: JoinTableRow, full: seq<JoinTableRow>,
                        wide: JoinTableRow)
    requires q.withAccount.Some? ==> AccountKeys(batch) == AccountKeys(full) && row.accountID == wide.accountID
    ensures JoinSkeletonOf(JoinNode(db, q, batch, row)).account ==
            JoinSkeletonOf(JoinNode(db, FullJoin(q), full, wide)).account
    decreases JoinHeight(q), 0
  {
    if q.withAccount.Some? {
      assert Full(JoinAccountQuery(q, batch)) == JoinAccountQuery(FullJoin(q), full);
      SameFound(db, JoinAccountQuery(q, batch), row.accountID);
    }
  }

  lemma SameJoinBatch(db: Snapshot, q: JoinQ)
    ensures |ScannedJoins(db, q)| == |ScannedJoins(db, FullJoin(q))|
    ensures q.withAccount.Some? ==> AccountKeys(ScannedJoins(db, q)) == AccountKeys(ScannedJoins(db, FullJoin(q)))
  {
  }

  lemma SameJoinGroup(db: Snapshot, q: JoinQ, i: nat)
    requires i < |ScannedJoins(db, q)|
    ensures |JoinNodes(db, q)| == |JoinNodes(db, FullJoin(q))| == |ScannedJoins(db, q)|
    ensures JoinSkeletonOf(JoinNodes(db, q)[i]).group == JoinSkeletonOf(JoinNodes(db, FullJoin(q))[i]).group
    ensures JoinNodes(db, q)[i].loaded == JoinNodes(db, FullJoin(q))[i].loaded
  {
    var batch, full := ScannedJoins(db, q), ScannedJoins(db, FullJoin(q));
    if q.withGroup.Some? {
      assert GroupKeys(batch) == GroupKeys(full);
      SameLeaf(db.groups, JoinGroupQuery(q, batch), batch[i].groupID);
    }
  }
}
