/** The reference meaning of eager loading: a nested loop that runs every edge query once for each
    node, with that node's key. Loading in batches agrees with it as long as no edge query carries a
    limit or an offset, and the batch meets an error exactly when some single lookup would. */
module NestedLoop {
  import opened Wrappers
  import opened Relational
  import opened Schema
  import opened Joins
  import opened Index
  import opened Queries
  import opened Stages
  import opened Grouping

  // ----- what a caller sees -----

  /** The groups of an account, in order or as a set. If group queries rank groups alike, their order depends on
      the rest of the batch. */
  datatype GroupsView = InOrder(list: seq<LeafRow>) | AsSet(groups: set<LeafRow>)

  function SeeGroups(ordered: bool, groups: seq<LeafRow>): GroupsView {
    if ordered then InOrder(groups) else AsSet(set g | g in groups)
  }

  /** A loaded account. */
  datatype AccountView = AccountView(
    row: AccountRow,
    loaded: Loaded,
    groups: GroupsView,
    proxy: Option<LeafRow>,
    parent: Option<AccountView>,
    children: seq<AccountView>,
    accountGroups: seq<JoinView>)

  datatype JoinView = JoinView(row: JoinTableRow, loaded: JoinLoaded, account: Option<AccountView>,
                               group: Option<LeafRow>)

  function View(ordered: bool, t: AccountTree): AccountView {
    AccountView(
      t.row, t.loaded, SeeGroups(ordered, t.groups), t.proxy,
      if t.parent.None? then None else Some(View(ordered, t.parent.value)),
      seq(|t.children|, i requires 0 <= i < |t.children| => View(ordered, t.children[i])),
      seq(|t.accountGroups|, i requires 0 <= i < |t.accountGroups| => JoinViewOf(ordered, t.accountGroups[i])))
  }

  function JoinViewOf(ordered: bool, t: JoinTree): JoinView {
    JoinView(t.row, t.loaded, if t.account.None? then None else Some(View(ordered, t.account.value)), t.group)
  }

  // ----- one query for each node -----

  function IDIs(k: int): AccountRow -> bool { (r: AccountRow) => r.id == k }

  function ParentIs(k: int): AccountRow -> bool { (r: AccountRow) => r.parentAccountID == Some(k) }

  function LeafIDIs(k: int): LeafRow -> bool { (r: LeafRow) => r.id == k }

  function AccountOf(k: int): JoinTableRow -> bool { (r: JoinTableRow) => r.accountID == k }

  /** The row that a leaf query narrowed to one id brings back. */
  function LookupLeaf(table: seq<LeafRow>, q: LeafQ, k: int): Option<LeafRow> {
    var rows := SelectRows(Narrow(q.criteria, LeafIDIs(k)), table);
    if rows == [] then None else Some(ProjectLeaf(LeafColumns(q), rows[0]))
  }

  /** The account that a query narrowed to one id brings back, with its own edges. */
  function Lookup(ordered: bool, db: Snapshot, q: AccountQ, k: int): Option<AccountView>
    decreases Height(q), 1
  {
    var rows := SelectRows(Narrow(q.criteria, IDIs(k)), db.accounts);
    if rows == [] then None else Some(Alone(ordered, db, q, rows[0]))
  }

  /** What loading the edges of a single row gives. */
  function Alone(ordered: bool, db: Snapshot, q: AccountQ, row: AccountRow): AccountView
    decreases Height(q), 0
  {
    AccountView(
      ProjectAccount(ColumnsOf(q), row),
      LoadedOf(q),
      SeeGroups(ordered, if q.withGroups.None? then [] else LoneGroups(db, q.withGroups.value, row.id)),
      if q.withProxy.None? || row.proxyID.None? then None
      else LookupLeaf(db.proxies, q.withProxy.value, row.proxyID.value),
      if q.withParent.None? || row.parentAccountID.None? then None
      else Lookup(ordered, db, q.withParent.value, row.parentAccountID.value),
      if q.withChildren.None? then []
      else
        var sub := KeyedChild(q.withChildren.value);
        var rows := SelectRows(Narrow(sub.criteria, ParentIs(row.id)), db.accounts);
        seq(|rows|, i requires 0 <= i < |rows| => Alone(ordered, db, sub, rows[i])),
      if q.withAccountGroups.None? then []
      else
        var sub := KeyedJoin(q.withAccountGroups.value);
        var rows := SelectRows(Narrow(sub.criteria, AccountOf(row.id)), db.accountGroups);
        seq(|rows|, i requires 0 <= i < |rows| => JoinAlone(ordered, db, sub, rows[i])))
  }

  function JoinAlone(ordered: bool, db: Snapshot, q: JoinQ, row: JoinTableRow): JoinView
    decreases JoinHeight(q), 0
  {
    JoinView(
      ProjectJoin(JoinColumnsOf(q), row),
      JoinLoadedOf(q),
      if q.withAccount.None? then None else Lookup(ordered, db, q.withAccount.value, row.accountID),
      if q.withGroup.None? then None else LookupLeaf(db.groups, q.withGroup.value, row.groupID))
  }

  /** No edge query, at any depth, carries a limit or an offset. The root may. */
  ghost predicate EdgesUnwindowed(q: AccountQ)
    decreases Height(q)
  {
    && (q.withGroups.Some? ==> Unwindowed(q.withGroups.value.criteria))
    && (q.withProxy.Some? ==> Unwindowed(q.withProxy.value.criteria))
    && (q.withParent.Some? ==> Unwindowed(q.withParent.value.criteria) && EdgesUnwindowed(q.withParent.value))
    && (q.withChildren.Some? ==> Unwindowed(q.withChildren.value.criteria) && EdgesUnwindowed(q.withChildren.value))
    && (q.withAccountGroups.Some? ==>
          Unwindowed(q.withAccountGroups.value.criteria) && JoinEdgesUnwindowed(q.withAccountGroups.value))
  }

  ghost predicate JoinEdgesUnwindowed(q: JoinQ)
    decreases JoinHeight(q)
  {
    && (q.withAccount.Some? ==> Unwindowed(q.withAccount.value.criteria) && EdgesUnwindowed(q.withAccount.value))
    && (q.withGroup.Some? ==> Unwindowed(q.withGroup.value.criteria))
  }

  /** Every group query, at any depth, ranks the groups that it selects apart. */
  ghost predicate GroupsRanked(db: Snapshot, q: AccountQ)
    decreases Height(q)
  {
    && (q.withGroups.Some? ==> RanksApart(db.groups, q.withGroups.value.criteria))
    && (q.withParent.Some? ==> GroupsRanked(db, q.withParent.value))
    && (q.withChildren.Some? ==> GroupsRanked(db, q.withChildren.value))
    && (q.withAccountGroups.Some? ==> JoinGroupsRanked(db, q.withAccountGroups.value))
  }

  ghost predicate JoinGroupsRanked(db: Snapshot, q: JoinQ)
    decreases JoinHeight(q)
  {
    q.withAccount.Some? ==> GroupsRanked(db, q.withAccount.value)
  }

  // ----- narrowing to a batch, then to a key -----

  lemma NarrowTwice<R>(c: Criteria<R>, p: R -> bool, q: R -> bool, table: seq<R>)
    requires Unwindowed(c) && forall r | r in table && q(r) :: p(r)
    ensures Keep(q, SelectRows(Narrow(c, p), table)) == SelectRows(Narrow(c, q), table)
  {
    SelectNarrow(c, p, table);
    SelectNarrow(c, q, table);
    KeepTwice(p, q, SelectRows(c, table));
    forall r | r in SelectRows(c, table) ensures (p(r) && q(r)) == q(r) { SelectMember(c, table, r); }
    KeepSame(r => p(r) && q(r), q, SelectRows(c, table));
  }

  /** Picking items by their key is filtering the rows behind them by that key. */
  lemma {:induction false} WithKeyIsKeep<R>(rows: seq<R>, keys: seq<Option<int>>, k: int, p: R -> bool)
    requires |rows| == |keys| && forall i | 0 <= i < |rows| :: p(rows[i]) <==> keys[i] == Some(k)
    ensures WithKey(rows, keys, k) == Keep(p, rows)
  {
    if rows == [] {
    } else {
      var n := |rows| - 1;
      WithKeyIsKeep(rows[..n], keys[..n], k, p);
      assert rows == rows[..n] + [rows[n]];
      KeepConcat(p, rows[..n], [rows[n]]);
      assert Keep(p, [rows[n]]) == if p(rows[n]) then [rows[n]] else [];
    }
  }

  /** Of rows with unique keys, the one that carries a key is the only one that filtering keeps. */
  lemma KeepOnly<R>(key: R -> int, k: int, p: R -> bool, rows: seq<R>, at: nat)
    requires UniqueBy(key, rows) && at < |rows| && key(rows[at]) == k
    requires forall r | r in rows :: p(r) <==> key(r) == k
    ensures Keep(p, rows) == [rows[at]]
  {
    KeepOne(key, k, rows);
    KeepSame(p, r => key(r) == k, rows);
    KeepMember(p, rows, rows[at]);
  }

  /** Looking an id up among the results of the batch is looking it up in the narrowed query. */
  lemma FoundIsSelected<R, T>(rows: seq<R>, trees: seq<T>, key: R -> int, id: T -> int, k: int, p: R -> bool)
    returns (at: nat)
    requires |rows| == |trees| && UniqueBy(key, rows)
    requires forall i | 0 <= i < |rows| :: id(trees[i]) == key(rows[i])
    requires forall r | r in rows :: p(r) <==> key(r) == k
    ensures FindLast(trees, id, k).None? <==> Keep(p, rows) == []
    ensures FindLast(trees, id, k).Some? ==>
      at < |rows| && Keep(p, rows) == [rows[at]] && FindLast(trees, id, k) == Some(trees[at])
  {
    at := 0;
    if FindLast(trees, id, k).Some? {
      at :| at < |trees| && FindLast(trees, id, k) == Some(trees[at]);
      KeepOnly(key, k, p, rows, at);
    } else {
      forall r | r in rows ensures !p(r) {
        var i :| 0 <= i < |rows| && rows[i] == r;
        assert id(trees[i]) != k;
      }
      KeepNone(p, rows);
    }
  }

  // ----- leaves -----

  lemma LeafBatchIsLookup(table: seq<LeafRow>, q: LeafQ, ids: seq<int>, k: int)
    requires UniqueBy(LeafKey, table) && Unwindowed(q.criteria) && k in ids
    ensures FindLast(Leaves(table, WhereLeaf(q, LeafIDIn(ids))), LeafKey, k) == LookupLeaf(table, q, k)
  {
    var p := WhereLeaf(q, LeafIDIn(ids));
    var rows := SelectRows(p.criteria, table);
    SelectUnique(LeafKey, p.criteria, table);
    LeafColumnsKeep(p);
    var at := FoundIsSelected(rows, Leaves(table, p), LeafKey, LeafKey, k, LeafIDIs(k));
    NarrowTwice(q.criteria, LeafIDIn(ids), LeafIDIs(k), table);
  }

  // ----- the whole tree -----

  /** What a single row gets does not depend on how its query was narrowed. */
  lemma AloneIgnoresCriteria(ordered: bool, db: Snapshot, q: AccountQ, c: Criteria<AccountRow>, row: AccountRow)
    ensures Alone(ordered, db, q.(criteria := c), row) == Alone(ordered, db, q, row)
  {
  }

  lemma JoinAloneIgnoresCriteria(ordered: bool, db: Snapshot, q: JoinQ, c: Criteria<JoinTableRow>, row: JoinTableRow)
    ensures JoinAlone(ordered, db, q.(criteria := c), row) == JoinAlone(ordered, db, q, row)
  {
  }

  lemma SelectedRowInBatch(db: Snapshot, q: AccountQ, i: nat)
    requires i < |SelectRows(q.criteria, db.accounts)|
    ensures
      var row, batch := SelectRows(q.criteria, db.accounts)[i], ScannedAccounts(db, q);
      && batch[i] == ProjectAccount(ColumnsOf(q), row) && batch[i].id == row.id && row.id in IDs(batch)
      && (q.withProxy.Some? ==> batch[i].proxyID == row.proxyID)
      && (q.withProxy.Some? && row.proxyID.Some? ==> row.proxyID.value in FirstSeen(ProxyKeys(batch)))
      && (q.withParent.Some? ==> batch[i].parentAccountID == row.parentAccountID)
      && (q.withParent.Some? && row.parentAccountID.Some? ==> row.parentAccountID.value in FirstSeen(ParentKeys(batch)))
  {
    AccountColumnsKeep(q);
    var batch := ScannedAccounts(db, q);
    assert IDs(batch)[i] == batch[i].id;
    assert ProxyKeys(batch)[i] == batch[i].proxyID;
    assert ParentKeys(batch)[i] == batch[i].parentAccountID;
  }

  /** The trees of a batch carry the scanned rows, in order. */
  lemma AccountsRows(db: Snapshot, q: AccountQ)
    ensures |Accounts(db, q)| == |SelectRows(q.criteria, db.accounts)|
    ensures forall i | 0 <= i < |Accounts(db, q)| ::
      Accounts(db, q)[i].row == ProjectAccount(ColumnsOf(q), SelectRows(q.criteria, db.accounts)[i])
  {
  }

  lemma JoinNodesRows(db: Snapshot, q: JoinQ)
    ensures |JoinNodes(db, q)| == |SelectRows(q.criteria, db.accountGroups)|
    ensures forall i | 0 <= i < |JoinNodes(db, q)| ::
      JoinNodes(db, q)[i].row == ProjectJoin(JoinColumnsOf(q), SelectRows(q.criteria, db.accountGroups)[i])
  {
  }

  lemma LookupAgrees(ordered: bool, db: Snapshot, q: AccountQ, ids: seq<int>, k: int)
    requires ValidSnapshot(db) && Unwindowed(q.criteria) && EdgesUnwindowed(q) && (ordered ==> GroupsRanked(db, q))
    requires k in ids
    ensures
      var found := FindLast(Accounts(db, Where(q, IDIn(ids))), TreeID, k);
      Lookup(ordered, db, q, k) == if found.None? then None else Some(View(ordered, found.value))
    decreases Height(q), 2
  {
    var p := Where(q, IDIn(ids));
    var rows := SelectRows(p.criteria, db.accounts);
    SelectUnique(AccountKey, p.criteria, db.accounts);
    AccountColumnsKeep(p);
    var trees := Accounts(db, p);
    AccountsRows(db, p);
    var at := FoundIsSelected(rows, trees, AccountKey, TreeID, k, IDIs(k));
    NarrowTwice(q.criteria, IDIn(ids), IDIs(k), db.accounts);
    if FindLast(trees, TreeID, k).Some? {
      BatchIsAlone(ordered, db, p, at);
      AloneIgnoresCriteria(ordered, db, q, p.criteria, rows[at]);
    }
  }

  /** The children that a batch hands to one parent are the rows of the batch that name it. */
  lemma ChildRows(db: Snapshot, sub: AccountQ, ids: seq<int>, id: int) returns (at: seq<nat>)
    ensures
      var p := Where(KeyedChild(sub), ParentIn(ids));
      var batch, trees := SelectRows(p.criteria, db.accounts), Accounts(db, p);
      var kept := Keep(ParentIs(id), batch);
      && |trees| == |batch| && |at| == |kept| == |ChildrenOf(id, trees)|
      && forall i | 0 <= i < |at| ::
           at[i] < |batch| && ChildrenOf(id, trees)[i] == trees[at[i]] && kept[i] == batch[at[i]]
  {
    var p := Where(KeyedChild(sub), ParentIn(ids));
    var batch, trees := SelectRows(p.criteria, db.accounts), Accounts(db, p);
    var keys := Map(ParentKey, trees);
    AccountColumnsKeep(p);
    AccountsRows(db, p);
    forall i | 0 <= i < |batch| ensures keys[i] == batch[i].parentAccountID {
      assert keys[i] == ParentKey(trees[i]);
    }
    WithKeyIsKeep(batch, keys, id, ParentIs(id));
    at := WithKeyRelated(trees, batch, keys, id);
  }

  lemma ChildrenAgree(ordered: bool, db: Snapshot, sub: AccountQ, ids: seq<int>, id: int)
    requires ValidSnapshot(db) && Unwindowed(sub.criteria) && EdgesUnwindowed(sub)
    requires (ordered ==> GroupsRanked(db, sub)) && id in ids
    ensures
      var keyed := KeyedChild(sub);
      var trees := ChildrenOf(id, Accounts(db, Where(keyed, ParentIn(ids))));
      var rows := SelectRows(Narrow(keyed.criteria, ParentIs(id)), db.accounts);
      |trees| == |rows| && forall i | 0 <= i < |rows| :: View(ordered, trees[i]) == Alone(ordered, db, keyed, rows[i])
    decreases Height(sub), 3
  {
    var at := ChildRows(db, sub, ids, id);
    NarrowTwice(sub.criteria, ParentIn(ids), ParentIs(id), db.accounts);
    forall i | 0 <= i < |at| { ChildAgrees(ordered, db, sub, ids, at[i]); }
  }

  lemma ChildAgrees(ordered: bool, db: Snapshot, sub: AccountQ, ids: seq<int>, j: nat)
    requires ValidSnapshot(db) && EdgesUnwindowed(sub) && (ordered ==> GroupsRanked(db, sub))
    requires j < |SelectRows(Where(KeyedChild(sub), ParentIn(ids)).criteria, db.accounts)|
    ensures
      var keyed := KeyedChild(sub);
      var p := Where(keyed, ParentIn(ids));
      && |Accounts(db, p)| == |SelectRows(p.criteria, db.accounts)|
      && View(ordered, Accounts(db, p)[j]) == Alone(ordered, db, keyed, SelectRows(p.criteria, db.accounts)[j])
    decreases Height(sub), 2
  {
    var keyed := KeyedChild(sub);
    var p := Where(keyed, ParentIn(ids));
    BatchIsAlone(ordered, db, p, j);
    AloneIgnoresCriteria(ordered, db, keyed, p.criteria, SelectRows(p.criteria, db.accounts)[j]);
  }

  /** The join rows that a batch hands to one account are the rows of the batch that name it. */
  lemma JoinRowsHanded(db: Snapshot, sub: JoinQ, ids: seq<int>, id: int) returns (at: seq<nat>)
    ensures
      var p := WhereJoin(KeyedJoin(sub), AccountIn(ids));
      var batch, trees := SelectRows(p.criteria, db.accountGroups), JoinNodes(db, p);
      var kept := Keep(AccountOf(id), batch);
      && |trees| == |batch| && |at| == |kept| == |JoinsOf(id, trees)|
      && forall i | 0 <= i < |at| ::
           at[i] < |batch| && JoinsOf(id, trees)[i] == trees[at[i]] && kept[i] == batch[at[i]]
  {
    var p := WhereJoin(KeyedJoin(sub), AccountIn(ids));
    var batch, trees := SelectRows(p.criteria, db.accountGroups), JoinNodes(db, p);
    var keys := Map(JoinKey, trees);
    JoinNodesRows(db, p);
    forall i | 0 <= i < |batch| ensures keys[i] == Some(batch[i].accountID) {
      assert keys[i] == JoinKey(trees[i]);
    }
    WithKeyIsKeep(batch, keys, id, AccountOf(id));
    at := WithKeyRelated(trees, batch, keys, id);
  }

  lemma JoinsAgree(ordered: bool, db: Snapshot, sub: JoinQ, ids: seq<int>, id: int)
    requires ValidSnapshot(db) && Unwindowed(sub.criteria) && JoinEdgesUnwindowed(sub)
    requires (ordered ==> JoinGroupsRanked(db, sub)) && id in ids
    ensures
      var keyed := KeyedJoin(sub);
      var trees := JoinsOf(id, JoinNodes(db, WhereJoin(keyed, AccountIn(ids))));
      var rows := SelectRows(Narrow(keyed.criteria, AccountOf(id)), db.accountGroups);
      |trees| == |rows| && forall i | 0 <= i < |rows| ::
        JoinViewOf(ordered, trees[i]) == JoinAlone(ordered, db, keyed, rows[i])
    decreases JoinHeight(sub), 2
  {
    var keyed := KeyedJoin(sub);
    var p := WhereJoin(keyed, AccountIn(ids));
    var at := JoinRowsHanded(db, sub, ids, id);
    NarrowTwice(keyed.criteria, AccountIn(ids), AccountOf(id), db.accountGroups);
    forall i | 0 <= i < |at|
      ensures JoinViewOf(ordered, JoinsOf(id, JoinNodes(db, p))[i]) ==
              JoinAlone(ordered, db, keyed, SelectRows(Narrow(keyed.criteria, AccountOf(id)), db.accountGroups)[i])
    {
      JoinBatchIsAlone(ordered, db, p, at[i]);
      JoinAloneIgnoresCriteria(ordered, db, keyed, p.criteria, SelectRows(p.criteria, db.accountGroups)[at[i]]);
    }
  }

  /** Loading in batches is loading row by row, whatever the tree of edge queries, the columns they
      select, the ranking, the duplicates and cycles among the keys, and the window of the root. */
  lemma {:induction false} BatchIsAlone(ordered: bool, db: Snapshot, q: AccountQ, i: nat)
    requires ValidSnapshot(db) && EdgesUnwindowed(q) && (ordered ==> GroupsRanked(db, q))
    requires i < |SelectRows(q.criteria, db.accounts)|
    ensures |Accounts(db, q)| == |SelectRows(q.criteria, db.accounts)|
    ensures View(ordered, Accounts(db, q)[i]) == Alone(ordered, db, q, SelectRows(q.criteria, db.accounts)[i])
    decreases Height(q), 1
  {
    var row, batch := SelectRows(q.criteria, db.accounts)[i], ScannedAccounts(db, q);
    SelectedRowInBatch(db, q, i);
    LeavesAreAlone(ordered, db, q, batch, row);
    ParentIsAlone(ordered, db, q, batch, row);
    ChildrenAreAlone(ordered, db, q, batch, row);
    JoinsAreAlone(ordered, db, q, batch, row);
    assert Accounts(db, q)[i] == AccountNode(db, q, batch, batch[i]);
  }

  lemma GroupsSeenAlone(ordered: bool, db: Snapshot, q: LeafQ, ids: seq<int>, id: int)
    requires ValidSnapshot(db) && Unwindowed(q.criteria) && id in ids && (ordered ==> RanksApart(db.groups, q.criteria))
    ensures SeeGroups(ordered, GroupsFor(GroupStream(db, q, ids), id)) == SeeGroups(ordered, LoneGroups(db, q, id))
  {
    if ordered { GroupsInOrder(db, q, ids, id); } else { GroupBatchIsAlone(db, q, ids, id); }
  }

  /** One row of a batch that knows its keys: its columns, groups and proxy. */
  lemma LeavesAreAlone(ordered: bool, db: Snapshot, q: AccountQ, batch: seq<AccountRow>, row: AccountRow)
    requires ValidSnapshot(db) && EdgesUnwindowed(q) && (ordered ==> GroupsRanked(db, q)) && row.id in IDs(batch)
    requires q.withProxy.Some? && row.proxyID.Some? ==> row.proxyID.value in FirstSeen(ProxyKeys(batch))
    ensures
      var view := View(ordered, AccountNode(db, q, batch, ProjectAccount(ColumnsOf(q), row)));
      var alone := Alone(ordered, db, q, row);
      view.row == alone.row && view.loaded == alone.loaded && view.groups == alone.groups && view.proxy == alone.proxy
  {
    AccountColumnsKeep(q);
    if q.withGroups.Some? { GroupsSeenAlone(ordered, db, q.withGroups.value, IDs(batch), row.id); }
    if q.withProxy.Some? && row.proxyID.Some? {
      LeafBatchIsLookup(db.proxies, q.withProxy.value, FirstSeen(ProxyKeys(batch)), row.proxyID.value);
    }
  }

  lemma ParentIsAlone(ordered: bool, db: Snapshot, q: AccountQ, batch: seq<AccountRow>, row: AccountRow)
    requires ValidSnapshot(db) && EdgesUnwindowed(q) && (ordered ==> GroupsRanked(db, q))
    requires q.withParent.Some? && row.parentAccountID.Some? ==>
      row.parentAccountID.value in FirstSeen(ParentKeys(batch))
    ensures View(ordered, AccountNode(db, q, batch, ProjectAccount(ColumnsOf(q), row))).parent ==
            Alone(ordered, db, q, row).parent
    decreases Height(q), 0
  {
    AccountColumnsKeep(q);
    if q.withParent.Some? && row.parentAccountID.Some? {
      LookupAgrees(ordered, db, q.withParent.value, FirstSeen(ParentKeys(batch)), row.parentAccountID.value);
    }
  }

  lemma ChildrenAreAlone(ordered: bool, db: Snapshot, q: AccountQ, batch: seq<AccountRow>, row: AccountRow)
    requires ValidSnapshot(db) && EdgesUnwindowed(q) && (ordered ==> GroupsRanked(db, q)) && row.id in IDs(batch)
    ensures View(ordered, AccountNode(db, q, batch, ProjectAccount(ColumnsOf(q), row))).children ==
            Alone(ordered, db, q, row).children
    decreases Height(q), 0
  {
    AccountColumnsKeep(q);
    if q.withChildren.Some? { ChildrenAgree(ordered, db, q.withChildren.value, IDs(batch), row.id); }
  }

  lemma JoinsAreAlone(ordered: bool, db: Snapshot, q: AccountQ, batch: seq<AccountRow>, row: AccountRow)
    requires ValidSnapshot(db) && EdgesUnwindowed(q) && (ordered ==> GroupsRanked(db, q)) && row.id in IDs(batch)
    ensures View(ordered, AccountNode(db, q, batch, ProjectAccount(ColumnsOf(q), row))).accountGroups ==
            Alone(ordered, db, q, row).accountGroups
    decreases Height(q), 0
  {
    AccountColumnsKeep(q);
    if q.withAccountGroups.Some? { JoinsAgree(ordered, db, q.withAccountGroups.value, IDs(batch), row.id); }
  }

  lemma {:induction false} JoinBatchIsAlone(ordered: bool, db: Snapshot, q: JoinQ, i: nat)
    requires ValidSnapshot(db) && JoinEdgesUnwindowed(q) && (ordered ==> JoinGroupsRanked(db, q))
    requires i < |SelectRows(q.criteria, db.accountGroups)|
    ensures |JoinNodes(db, q)| == |SelectRows(q.criteria, db.accountGroups)|
    ensures JoinViewOf(ordered, JoinNodes(db, q)[i]) ==
            JoinAlone(ordered, db, q, SelectRows(q.criteria, db.accountGroups)[i])
    decreases JoinHeight(q), 1
  {
    var row, batch := SelectRows(q.criteria, db.accountGroups)[i], ScannedJoins(db, q);
    if q.withAccount.Some? {
      assert AccountKeys(batch)[i] == Some(row.accountID);
      LookupAgrees(ordered, db, q.withAccount.value, FirstSeen(AccountKeys(batch)), row.accountID);
    }
    if q.withGroup.Some? {
      assert GroupKeys(batch)[i] == Some(row.groupID);
      LeafBatchIsLookup(db.groups, q.withGroup.value, FirstSeen(GroupKeys(batch)), row.groupID);
    }
  }
}
