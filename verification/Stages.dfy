/** The trees of a batch after each edge in turn, and why the last of them are the result. */
module Stages {
  import opened Wrappers
  import opened Relational
  import opened Schema
  import opened Joins
  import opened Queries
  import opened Attach
  import opened Preparing

  function BareTrees(batch: seq<AccountRow>, loaded: Loaded): seq<AccountTree> {
    seq(|batch|, i requires 0 <= i < |batch| => Bare(batch[i], loaded))
  }

  function BareJoins(batch: seq<JoinTableRow>, loaded: JoinLoaded): seq<JoinTree> {
    seq(|batch|, i requires 0 <= i < |batch| => JoinTree(batch[i], loaded, None, None))
  }

  ghost function StageGroups(db: Snapshot, sub: Option<LeafQ>, batch: seq<AccountRow>,
                             t: seq<AccountTree>): seq<AccountTree>
  {
    if sub.None? then t else WithGroups(t, GroupStream(db, sub.value, IDs(batch)))
  }

  ghost function StageProxy(db: Snapshot, sub: Option<LeafQ>, batch: seq<AccountRow>,
                            t: seq<AccountTree>): seq<AccountTree>
    requires |batch| == |t|
  {
    if sub.None? then t
    else WithProxies(t, ProxyKeys(batch),
                     Leaves(db.proxies, WhereLeaf(sub.value, LeafIDIn(FirstSeen(ProxyKeys(batch))))))
  }

  ghost function StageParent(db: Snapshot, sub: Option<AccountQ>, batch: seq<AccountRow>,
                             t: seq<AccountTree>): seq<AccountTree>
    requires |batch| == |t|
  {
    if sub.None? then t
    else WithParents(t, ParentKeys(batch), Accounts(db, Where(sub.value, IDIn(FirstSeen(ParentKeys(batch))))))
  }

  ghost function StageChildren(db: Snapshot, sub: Option<AccountQ>, batch: seq<AccountRow>,
                               t: seq<AccountTree>): seq<AccountTree>
  {
    if sub.None? then t
    else WithChildren(t, Accounts(db, Where(KeyedChild(sub.value), ParentIn(IDs(batch)))))
  }

  ghost function StageJoins(db: Snapshot, sub: Option<JoinQ>, batch: seq<AccountRow>,
                            t: seq<AccountTree>): seq<AccountTree>
  {
    if sub.None? then t
    else WithJoins(t, JoinNodes(db, WhereJoin(KeyedJoin(sub.value), AccountIn(IDs(batch)))))
  }

  ghost function LeafStages(db: Snapshot, q: AccountQ, batch: seq<AccountRow>): (t: seq<AccountTree>)
    ensures |t| == |batch|
  {
    var t := BareTrees(batch, LoadedOf(q));
    var t := StageGroups(db, q.withGroups, batch, t);
    StageProxy(db, q.withProxy, batch, t)
  }

  lemma LeafStagesKeep(db: Snapshot, q: AccountQ, batch: seq<AccountRow>)
    ensures forall i | 0 <= i < |batch| ::
      var t := LeafStages(db, q, batch)[i];
      t.row == batch[i] && t.parent == None && t.children == [] && t.accountGroups == []
  {
  }

  ghost function TreeStages(db: Snapshot, q: AccountQ, batch: seq<AccountRow>,
                            t: seq<AccountTree>): (s: seq<AccountTree>)
    requires |t| == |batch|
    ensures |s| == |batch|
  {
    var t := StageParent(db, q.withParent, batch, t);
    var t := StageChildren(db, q.withChildren, batch, t);
    StageJoins(db, q.withAccountGroups, batch, t)
  }

  ghost function AllStages(db: Snapshot, q: AccountQ, batch: seq<AccountRow>): (t: seq<AccountTree>)
    ensures |t| == |batch|
  {
    TreeStages(db, q, batch, LeafStages(db, q, batch))
  }

  lemma StageGroupsFills(db: Snapshot, q: AccountQ, batch: seq<AccountRow>, t: seq<AccountTree>, i: nat)
    requires i < |batch| == |t| && t[i].row == batch[i] && (q.withGroups.None? ==> t[i].groups == [])
    ensures StageGroups(db, q.withGroups, batch, t)[i] == t[i].(groups := AccountNode(db, q, batch, batch[i]).groups)
  {
  }

  lemma StageProxyFills(db: Snapshot, q: AccountQ, batch: seq<AccountRow>, t: seq<AccountTree>, i: nat)
    requires i < |batch| == |t| && t[i].row == batch[i] && (q.withProxy.None? ==> t[i].proxy == None)
    ensures StageProxy(db, q.withProxy, batch, t)[i] == t[i].(proxy := AccountNode(db, q, batch, batch[i]).proxy)
  {
  }

  lemma StageParentFills(db: Snapshot, q: AccountQ, batch: seq<AccountRow>, t: seq<AccountTree>, i: nat)
    requires i < |batch| == |t| && t[i].row == batch[i] && (q.withParent.None? ==> t[i].parent == None)
    ensures StageParent(db, q.withParent, batch, t)[i] == t[i].(parent := AccountNode(db, q, batch, batch[i]).parent)
  {
  }

  lemma StageChildrenFills(db: Snapshot, q: AccountQ, batch: seq<AccountRow>, t: seq<AccountTree>, i: nat)
    requires i < |batch| == |t| && t[i].row == batch[i] && (q.withChildren.None? ==> t[i].children == [])
    ensures StageChildren(db, q.withChildren, batch, t)[i] ==
            t[i].(children := AccountNode(db, q, batch, batch[i]).children)
  {
  }

  lemma StageJoinsFills(db: Snapshot, q: AccountQ, batch: seq<AccountRow>, t: seq<AccountTree>, i: nat)
    requires i < |batch| == |t| && t[i].row == batch[i] && (q.withAccountGroups.None? ==> t[i].accountGroups == [])
    ensures StageJoins(db, q.withAccountGroups, batch, t)[i] ==
            t[i].(accountGroups := AccountNode(db, q, batch, batch[i]).accountGroups)
  {
  }

  lemma StagesAreNodes(db: Snapshot, q: AccountQ, batch: seq<AccountRow>, i: nat)
    requires i < |batch|
    ensures AllStages(db, q, batch)[i] == AccountNode(db, q, batch, batch[i])
  {
    var t0 := BareTrees(batch, LoadedOf(q));
    StageGroupsFills(db, q, batch, t0, i);
    var t1 := StageGroups(db, q.withGroups, batch, t0);
    StageProxyFills(db, q, batch, t1, i);
    var t2 := StageProxy(db, q.withProxy, batch, t1);
    StageParentFills(db, q, batch, t2, i);
    var t3 := StageParent(db, q.withParent, batch, t2);
    StageChildrenFills(db, q, batch, t3, i);
    var t4 := StageChildren(db, q.withChildren, batch, t3);
    StageJoinsFills(db, q, batch, t4, i);
  }

  lemma StagesAreAccounts(db: Snapshot, q: AccountQ)
    ensures AllStages(db, q, ScannedAccounts(db, q)) == Accounts(db, q)
  {
    var batch := ScannedAccounts(db, q);
    forall i | 0 <= i < |batch| { StagesAreNodes(db, q, batch, i); }
  }

  ghost function StageJoinAccount(db: Snapshot, sub: Option<AccountQ>, batch: seq<JoinTableRow>,
                                  t: seq<JoinTree>): seq<JoinTree>
    requires |batch| == |t|
  {
    if sub.None? then t
    else WithAccounts(t, AccountKeys(batch), Accounts(db, Where(sub.value, IDIn(FirstSeen(AccountKeys(batch))))))
  }

  ghost function StageJoinGroup(db: Snapshot, sub: Option<LeafQ>, batch: seq<JoinTableRow>,
                                t: seq<JoinTree>): seq<JoinTree>
    requires |batch| == |t|
  {
    if sub.None? then t
    else WithJoinGroups(t, GroupKeys(batch),
                        Leaves(db.groups, WhereLeaf(sub.value, LeafIDIn(FirstSeen(GroupKeys(batch))))))
  }

  ghost function AllJoinStages(db: Snapshot, q: JoinQ, batch: seq<JoinTableRow>): (t: seq<JoinTree>)
    ensures |t| == |batch|
  {
    var t := BareJoins(batch, JoinLoadedOf(q));
    var t := StageJoinAccount(db, q.withAccount, batch, t);
    StageJoinGroup(db, q.withGroup, batch, t)
  }

  lemma JoinStagesAreNodes(db: Snapshot, q: JoinQ)
    ensures AllJoinStages(db, q, ScannedJoins(db, q)) == JoinNodes(db, q)
  {
    var batch := ScannedJoins(db, q);
    forall i | 0 <= i < |batch| ensures AllJoinStages(db, q, batch)[i] == JoinNode(db, q, batch, batch[i]) {}
  }

  // ----- what edge queries return -----

  lemma SelectedIDs(db: Snapshot, q: AccountQ, ids: seq<int>)
    ensures forall t | t in Accounts(db, Where(q, IDIn(ids))) :: t.row.id in ids
  {
    var p := Where(q, IDIn(ids));
    var rows := SelectRows(p.criteria, db.accounts);
    forall i | 0 <= i < |rows| ensures ScannedAccounts(db, p)[i].id in ids {
      assert rows[i] in rows;
      SelectMember(p.criteria, db.accounts, rows[i]);
      NarrowSelects(q.criteria, IDIn(ids), rows[i]);
      AccountColumnsKeep(p);
    }
  }

  lemma SelectedChildren(db: Snapshot, q: AccountQ, ids: seq<int>)
    ensures forall t | t in Accounts(db, Where(KeyedChild(q), ParentIn(ids))) ::
      t.row.parentAccountID.Some? && t.row.parentAccountID.value in ids
  {
    var keyed := KeyedChild(q);
    var p := Where(keyed, ParentIn(ids));
    var rows := SelectRows(p.criteria, db.accounts);
    forall i | 0 <= i < |rows|
      ensures ScannedAccounts(db, p)[i].parentAccountID.Some? && ScannedAccounts(db, p)[i].parentAccountID.value in ids
    {
      assert rows[i] in rows;
      SelectMember(p.criteria, db.accounts, rows[i]);
      NarrowSelects(keyed.criteria, ParentIn(ids), rows[i]);
      AccountColumnsKeep(p);
    }
  }

  lemma SelectedJoins(db: Snapshot, q: JoinQ, ids: seq<int>)
    ensures forall t | t in JoinNodes(db, WhereJoin(KeyedJoin(q), AccountIn(ids))) :: t.row.accountID in ids
  {
    var keyed := KeyedJoin(q);
    var p := WhereJoin(keyed, AccountIn(ids));
    var rows := SelectRows(p.criteria, db.accountGroups);
    forall i | 0 <= i < |rows| ensures ScannedJoins(db, p)[i].accountID in ids {
      assert rows[i] in rows;
      SelectMember(p.criteria, db.accountGroups, rows[i]);
      NarrowSelects(keyed.criteria, AccountIn(ids), rows[i]);
    }
  }

  lemma SelectedLeaves(table: seq<LeafRow>, q: LeafQ, ids: seq<int>)
    ensures forall t | t in Leaves(table, WhereLeaf(q, LeafIDIn(ids))) :: t.id in ids
  {
    var p := WhereLeaf(q, LeafIDIn(ids));
    var rows := SelectRows(p.criteria, table);
    forall i | 0 <= i < |rows| ensures Leaves(table, p)[i].id in ids {
      assert rows[i] in rows;
      SelectMember(p.criteria, table, rows[i]);
      NarrowSelects(q.criteria, LeafIDIn(ids), rows[i]);
      LeafColumnsKeep(p);
    }
  }

  lemma DefaultColumns()
    ensures ID in ACCOUNT_COLUMNS && ProxyID in ACCOUNT_COLUMNS && ParentAccountID in ACCOUNT_COLUMNS
  {
    assert ACCOUNT_COLUMNS[0] == ID && ACCOUNT_COLUMNS[10] == ProxyID && ACCOUNT_COLUMNS[34] == ParentAccountID;
  }

  /** Every selection keeps the id, the requested columns and the keys its edges need. */
  lemma AccountColumnsKeep(q: AccountQ)
    ensures ID in ColumnsOf(q)
    ensures forall c | c in q.fields :: c in ColumnsOf(q)
    ensures q.withProxy.Some? || q.fields == [] ==> ProxyID in ColumnsOf(q)
    ensures q.withParent.Some? || q.fields == [] ==> ParentAccountID in ColumnsOf(q)
  {
    DefaultColumns();
    IDThenOnce(ID, q.fields);
  }

  /** The columns of an account query: all of them, or the id first and once, the requested columns, the keys that
      the edges need, and nothing else. */
  lemma AccountColumnsExactly(q: AccountQ)
    ensures q.fields == [] ==> ColumnsOf(q) == ACCOUNT_COLUMNS
    ensures q.fields != [] ==>
      var cols := ColumnsOf(q);
      && cols[0] == ID && ID !in cols[1..]
      && forall c :: c in cols <==>
           || c == ID || c in q.fields
           || (q.withProxy.Some? && c == ProxyID) || (q.withParent.Some? && c == ParentAccountID)
  {
    IDThenOnce(ID, q.fields);
  }

  /** Each is there as often as it was asked for, or once if nobody asked for it. */
  lemma AccountColumnCounts(q: AccountQ, c: AccountColumn)
    requires q.fields != [] && c in ColumnsOf(q)
    ensures c != ID && c in q.fields ==> multiset(ColumnsOf(q))[c] == multiset(q.fields)[c]
    ensures c == ID || c !in q.fields ==> multiset(ColumnsOf(q))[c] == 1
  {
    var cols := IDThen(ID, q.fields);
    IDThenOnce(ID, q.fields);
    IDThenCount(ID, q.fields, c);
    var more := if q.withProxy.Some? then AddColumnOnce(cols, ProxyID) else cols;
    AddedOnce(cols, ProxyID, c);
    AddedOnce(more, ParentAccountID, c);
  }

  lemma AddedOnce<C>(columns: seq<C>, added: C, c: C)
    ensures multiset(AddColumnOnce(columns, added))[c] ==
            multiset(columns)[c] + if c == added && c !in columns then 1 else 0
  {
  }

  /** The columns of a query on the join table, which has no id: what was asked for, in that order, and the keys
      that the edges need, once and behind, and nothing else. */
  lemma JoinColumnsExactly(q: JoinQ)
    ensures q.fields == [] ==> JoinColumnsOf(q) == JOIN_COLUMNS
    ensures q.fields != [] ==>
      var cols := JoinColumnsOf(q);
      && q.fields <= cols
      && (forall c :: c in cols <==>
            || c in q.fields
            || (q.withAccount.Some? && c == AccountIDColumn) || (q.withGroup.Some? && c == GroupIDColumn))
      && forall i, j | 0 <= i < j < |cols| && cols[i] == cols[j] :: j < |q.fields|
  {
  }

  /** Whatever a child query selects, its rows know their parent, and nothing else is added to them. */
  lemma KeyedChildKeeps(q: AccountQ, row: AccountRow)
    ensures
      var keyed, plain := ProjectAccount(ColumnsOf(KeyedChild(q)), row), ProjectAccount(ColumnsOf(q), row);
      && keyed.parentAccountID == row.parentAccountID
      && keyed.(parentAccountID := None, attrs := map[]) == plain.(parentAccountID := None, attrs := map[])
      && forall c | c != ParentAccountID :: c in keyed.attrs <==> c in plain.attrs
  {
    DefaultColumns();
    AccountColumnsExactly(q);
    AccountColumnsExactly(KeyedChild(q));
  }

  /** Whatever a query for the join rows of accounts selects, its rows know their account. */
  lemma KeyedJoinKeeps(q: JoinQ, row: JoinTableRow)
    ensures
      var keyed, plain := ProjectJoin(JoinColumnsOf(KeyedJoin(q)), row), ProjectJoin(JoinColumnsOf(q), row);
      && keyed.accountID == row.accountID
      && keyed.(accountID := 0) == plain.(accountID := 0)
  {
    assert JOIN_COLUMNS[0] == AccountIDColumn;
    JoinColumnsExactly(q);
    JoinColumnsExactly(KeyedJoin(q));
  }

  lemma LeafColumnsKeep(q: LeafQ)
    ensures "id" == LeafColumns(q)[0]
  {
  }

  /** The columns of a query on groups or proxies: the id and all of the table, or the id first and once and the
      others as often as they were asked for. */
  lemma LeafColumnsExactly(q: LeafQ, c: string)
    ensures q.fields == [] ==> (c in LeafColumns(q) <==> c == "id" || c in q.columns)
    ensures q.fields != [] ==>
      LeafColumns(q)[0] == "id" && multiset(LeafColumns(q))[c] == if c == "id" then 1 else multiset(q.fields)[c]
  {
    IDThenCount("id", q.fields, c);
  }

  // ----- what a query brings back of a row -----

  /** A query that selects no columns brings back the whole row. */
  ghost predicate SelectsWhole(q: LeafQ, row: LeafRow) {
    q.fields == [] && forall c | c in row.attrs :: c in q.columns
  }

  lemma WholeLeaf(q: LeafQ, row: LeafRow)
    requires SelectsWhole(q, row)
    ensures ProjectLeaf(LeafColumns(q), row) == row
  {
    forall c | c in row.attrs { LeafColumnsExactly(q, c); }
    assert ProjectLeaf(LeafColumns(q), row).attrs == row.attrs;
  }

  /** One that selects some brings back those and the id. */
  lemma PartOfLeaf(q: LeafQ, row: LeafRow)
    requires q.fields != [] && "id" !in row.attrs
    ensures
      var part := ProjectLeaf(LeafColumns(q), row);
      && part.id == row.id
      && (forall c :: c in part.attrs <==> c in row.attrs && c in q.fields)
      && forall c | c in part.attrs :: part.attrs[c] == row.attrs[c]
  {
    forall c ensures c in LeafColumns(q) <==> c == "id" || c in q.fields { IDThenOnce("id", q.fields); }
  }

  ghost predicate KeysApart(row: AccountRow) {
    forall c | c in row.attrs :: !c.OtherColumn? && !c.ID? && !c.ProxyID? && !c.ParentAccountID?
  }

  lemma WholeAccount(q: AccountQ, row: AccountRow)
    requires q.fields == [] && KeysApart(row)
    ensures ProjectAccount(ColumnsOf(q), row) == row
  {
    DefaultColumns();
    forall c | c in row.attrs { KnownColumns(c); }
    ProjectCovering(ColumnsOf(q), row);
  }

  lemma PartOfAccount(q: AccountQ, row: AccountRow)
    requires q.fields != [] && KeysApart(row)
    ensures
      var part := ProjectAccount(ColumnsOf(q), row);
      && part.id == row.id
      && part.proxyID == (if ProxyID in q.fields || q.withProxy.Some? then row.proxyID else None)
      && part.parentAccountID ==
         (if ParentAccountID in q.fields || q.withParent.Some? then row.parentAccountID else None)
      && (forall c :: c in part.attrs <==> c in row.attrs && c in q.fields)
      && forall c | c in part.attrs :: part.attrs[c] == row.attrs[c]
  {
    AccountColumnsExactly(q);
  }

  lemma WholeJoinRow(q: JoinQ, row: JoinTableRow)
    requires q.fields == []
    ensures ProjectJoin(JoinColumnsOf(q), row) == row
  {
    forall c: JoinColumn { KnownJoinColumns(c); }
  }

  // ----- the join stream -----

  lemma {:induction false} JoinWithMember(join: JoinTableRow, groups: seq<LeafRow>, j: JoinRow)
    ensures j in JoinWith(join, groups) <==>
            j.group in groups && j.accountID == join.accountID && j.group.id == join.groupID
  {
    if groups == [] {
    } else {
      var n := |groups| - 1;
      JoinWithMember(join, groups[..n], j);
      assert groups == groups[..n] + [groups[n]];
    }
  }

  /** A row of the join is a row of the join table with a group that it names. */
  lemma {:induction false} JoinTableMember(joins: seq<JoinTableRow>, groups: seq<LeafRow>, j: JoinRow)
    ensures j in JoinTable(joins, groups) <==>
            j.group in groups && exists x | x in joins :: x.accountID == j.accountID && x.groupID == j.group.id
  {
    if joins == [] {
    } else {
      var n := |joins| - 1;
      JoinTableMember(joins[..n], groups, j);
      JoinWithMember(joins[n], groups, j);
      assert joins == joins[..n] + [joins[n]];
    }
  }

  lemma LiftSelects(c: Criteria<LeafRow>, ids: seq<int>, j: JoinRow)
    ensures Selects(Lift(c, ids), j) <==> Selects(c, j.group) && j.accountID in ids
  {
    var p := (j: JoinRow) => Selects(c, j.group) && j.accountID in ids;
    assert AllHold([p], j) <==> p(j);
  }

  lemma PreparedStream(db: Snapshot, q: LeafQ, ids: seq<int>)
    requires PrepareError(q.criteria.inters) == None
    ensures GroupStream(db, q.(criteria := Plain(Prepared(q.criteria))), ids) == GroupStream(db, q, ids)
  {
    var c, d := q.criteria, Plain(Prepared(q.criteria));
    var table := JoinTable(db.accountGroups, db.groups);
    forall j: JoinRow ensures Selects(Lift(d, ids), j) == Selects(Lift(c, ids), j) {
      LiftSelects(c, ids, j);
      LiftSelects(d, ids, j);
      AllHoldConcat(c.preds, AddedPredicates(c.inters), j.group);
      AddedPredicatesHide(c.inters, j.group);
    }
    KeepSame((j: JoinRow) => Selects(Lift(d, ids), j), (j: JoinRow) => Selects(Lift(c, ids), j), table);
  }
}
