/** What loaded edges have to do with one another and with the rows of the snapshot. */
module Relations {
  import opened Wrappers
  import opened Relational
  import opened Schema
  import opened Joins
  import opened Queries
  import opened Stages
  import opened Grouping
  import opened NestedLoop
  import opened Windows

  // ----- edges that lead to at most one row -----

  /** Whether the snapshot holds a row that a lookup of this key brings back. */
  ghost predicate Target(table: seq<AccountRow>, c: Criteria<AccountRow>, key: Option<int>, r: AccountRow) {
    r in table && key == Some(r.id) && Selects(c, r)
  }

  ghost predicate LeafTarget(table: seq<LeafRow>, c: Criteria<LeafRow>, key: Option<int>, r: LeafRow) {
    r in table && key == Some(r.id) && Selects(c, r)
  }

  /** A loaded parent is the row with the parent's id, if the edge query selects it. */
  lemma ParentIsTarget(db: Snapshot, q: AccountQ, i: nat)
    requires ValidSnapshot(db) && i < |SelectRows(q.criteria, db.accounts)|
    requires q.withParent.Some? && Unwindowed(q.withParent.value.criteria)
    ensures
      var key := SelectRows(q.criteria, db.accounts)[i].parentAccountID;
      var sub, parent := q.withParent.value, Accounts(db, q)[i].parent;
      && (parent.Some? <==> exists r | r in db.accounts :: Target(db.accounts, sub.criteria, key, r))
      && (forall r | r in db.accounts && Target(db.accounts, sub.criteria, key, r) ::
            parent.Some? && parent.value.row == ProjectAccount(ColumnsOf(sub), r))
  {
    var row, batch, sub := SelectRows(q.criteria, db.accounts)[i], ScannedAccounts(db, q), q.withParent.value;
    SelectedRowInBatch(db, q, i);
    assert Accounts(db, q)[i] == AccountNode(db, q, batch, batch[i]);
    if row.parentAccountID.Some? {
      var k, p := row.parentAccountID.value, ParentQuery(q, batch);
      LookupIsTarget(db, sub, FirstSeen(ParentKeys(batch)), k);
    }
  }

  lemma LookupIsTarget(db: Snapshot, sub: AccountQ, ids: seq<int>, k: int)
    requires ValidSnapshot(db) && Unwindowed(sub.criteria) && k in ids
    ensures
      var found := FindLast(Accounts(db, Where(sub, IDIn(ids))), TreeID, k);
      && (found.Some? <==> exists r | r in db.accounts :: Target(db.accounts, sub.criteria, Some(k), r))
      && (forall r | r in db.accounts && Target(db.accounts, sub.criteria, Some(k), r) ::
            found.Some? && found.value.row == ProjectAccount(ColumnsOf(sub), r))
  {
    var p := Where(sub, IDIn(ids));
    var rows, trees := SelectRows(p.criteria, db.accounts), Accounts(db, p);
    SelectUnique(AccountKey, p.criteria, db.accounts);
    AccountColumnsKeep(p);
    AccountsRows(db, p);
    var at := FoundIsSelected(rows, trees, AccountKey, TreeID, k, IDIs(k));
    NarrowTwice(sub.criteria, IDIn(ids), IDIs(k), db.accounts);
    var narrowed := Narrow(sub.criteria, IDIs(k));
    forall r | r in db.accounts
      ensures r in SelectRows(narrowed, db.accounts) <==> Target(db.accounts, sub.criteria, Some(k), r)
    {
      SelectComplete(narrowed, db.accounts, r);
      NarrowSelects(sub.criteria, IDIs(k), r);
    }
    if FindLast(trees, TreeID, k).Some? {
      assert rows[at] in Keep(IDIs(k), rows);
      SelectMember(p.criteria, db.accounts, rows[at]);
    } else {
      assert SelectRows(narrowed, db.accounts) == [];
    }
  }

  lemma LeafLookupIsTarget(table: seq<LeafRow>, q: LeafQ, k: int)
    requires UniqueBy(LeafKey, table) && Unwindowed(q.criteria)
    ensures
      var found := LookupLeaf(table, q, k);
      && (found.Some? <==> exists r | r in table :: LeafTarget(table, q.criteria, Some(k), r))
      && (forall r | r in table && LeafTarget(table, q.criteria, Some(k), r) ::
            found == Some(ProjectLeaf(LeafColumns(q), r)))
  {
    var narrowed := Narrow(q.criteria, LeafIDIs(k));
    var rows := SelectRows(narrowed, table);
    forall r | r in table ensures r in rows <==> LeafTarget(table, q.criteria, Some(k), r) {
      SelectComplete(narrowed, table, r);
      NarrowSelects(q.criteria, LeafIDIs(k), r);
    }
    if rows != [] {
      SelectMember(narrowed, table, rows[0]);
      SelectUnique(LeafKey, narrowed, table);
      forall r | r in table && LeafTarget(table, q.criteria, Some(k), r) ensures r == rows[0] {
        var m :| 0 <= m < |rows| && rows[m] == r;
        assert rows[0] in rows;
        assert 0 < m ==> LeafKey(rows[0]) != LeafKey(rows[m]);
      }
      assert rows[0] in rows;
    }
  }

  /** A loaded proxy is the row with the proxy's id, if the edge query selects it. */
  lemma ProxyIsTarget(db: Snapshot, q: AccountQ, i: nat)
    requires ValidSnapshot(db) && i < |SelectRows(q.criteria, db.accounts)|
    requires q.withProxy.Some? && Unwindowed(q.withProxy.value.criteria)
    ensures
      var key := SelectRows(q.criteria, db.accounts)[i].proxyID;
      var sub, proxy := q.withProxy.value, Accounts(db, q)[i].proxy;
      && (proxy.Some? <==> exists r | r in db.proxies :: LeafTarget(db.proxies, sub.criteria, key, r))
      && (forall r | r in db.proxies && LeafTarget(db.proxies, sub.criteria, key, r) ::
            proxy == Some(ProjectLeaf(LeafColumns(sub), r)))
  {
    var row, batch, sub := SelectRows(q.criteria, db.accounts)[i], ScannedAccounts(db, q), q.withProxy.value;
    SelectedRowInBatch(db, q, i);
    assert Accounts(db, q)[i] == AccountNode(db, q, batch, batch[i]);
    if row.proxyID.Some? {
      LeafBatchIsLookup(db.proxies, sub, FirstSeen(ProxyKeys(batch)), row.proxyID.value);
      LeafLookupIsTarget(db.proxies, sub, row.proxyID.value);
    }
  }

  // ----- parent and children -----

  predicate HasChild(t: AccountTree, id: int) {
    exists c | c in t.children :: c.row.id == id
  }

  predicate HasParent(t: AccountTree, id: int) {
    t.parent.Some? && t.parent.value.row.id == id
  }

  /** A loaded child is a row that names its parent, if the edge query selects it. */
  lemma ChildIsSelected(db: Snapshot, q: AccountQ, i: nat, c: AccountRow)
    requires ValidSnapshot(db) && i < |SelectRows(q.criteria, db.accounts)| && c in db.accounts
    requires q.withChildren.Some? && Unwindowed(q.withChildren.value.criteria)
    ensures HasChild(Accounts(db, q)[i], c.id) <==>
            && c.parentAccountID == Some(SelectRows(q.criteria, db.accounts)[i].id)
            && Selects(q.withChildren.value.criteria, c)
  {
    var row, batch, sub := SelectRows(q.criteria, db.accounts)[i], ScannedAccounts(db, q), q.withChildren.value;
    SelectedRowInBatch(db, q, i);
    var tree := Accounts(db, q)[i];
    assert tree == AccountNode(db, q, batch, batch[i]);
    var handed, chosen := HandedOut(db, sub, IDs(batch), row.id), Narrow(sub.criteria, ParentIs(row.id));
    HandedOutIsKept(db, sub, IDs(batch), row.id);
    NarrowTwice(sub.criteria, ParentIn(IDs(batch)), ParentIs(row.id), db.accounts);
    var rows := SelectRows(chosen, db.accounts);
    assert handed == Map(AccountKey, rows) == Map(TreeID, tree.children);
    SelectComplete(chosen, db.accounts, c);
    NarrowSelects(sub.criteria, ParentIs(row.id), c);
    if HasChild(tree, c.id) {
      var m :| 0 <= m < |tree.children| && tree.children[m].row.id == c.id;
      assert handed[m] == TreeID(tree.children[m]) == AccountKey(rows[m]);
      SelectMember(chosen, db.accounts, rows[m]);
      SameKey(AccountKey, db.accounts, c, rows[m]);
      assert rows[m] in rows;
    }
    if c in rows {
      var m :| 0 <= m < |rows| && rows[m] == c;
      assert handed[m] == TreeID(tree.children[m]) == AccountKey(rows[m]);
      assert tree.children[m] in tree.children;
    }
  }

  /** Parent and children are inverse edges: with whatever either edge query leaves out allowed for,
      an account is among the children of another exactly when that one is its parent. */
  lemma ParentInvertsChildren(db: Snapshot, q: AccountQ, p: nat, c: nat)
    requires ValidSnapshot(db) && p < |SelectRows(q.criteria, db.accounts)| && c < |SelectRows(q.criteria, db.accounts)|
    requires q.withParent.Some? && Unwindowed(q.withParent.value.criteria)
    requires q.withChildren.Some? && Unwindowed(q.withChildren.value.criteria)
    ensures
      var rows, trees := SelectRows(q.criteria, db.accounts), Accounts(db, q);
      HasChild(trees[p], rows[c].id) && Selects(q.withParent.value.criteria, rows[p]) <==>
      HasParent(trees[c], rows[p].id) && Selects(q.withChildren.value.criteria, rows[c])
  {
    var rows, trees, sub := SelectRows(q.criteria, db.accounts), Accounts(db, q), q.withParent.value;
    SelectMember(q.criteria, db.accounts, rows[p]);
    SelectMember(q.criteria, db.accounts, rows[c]);
    ChildIsSelected(db, q, p, rows[c]);
    ParentIsTarget(db, q, c);
    AccountColumnsKeep(sub);
    var key := rows[c].parentAccountID;
    if HasParent(trees[c], rows[p].id) {
      var r :| r in db.accounts && Target(db.accounts, sub.criteria, key, r);
      assert trees[c].parent.value.row.id == r.id;
      SameKey(AccountKey, db.accounts, r, rows[p]);
    }
    if key == Some(rows[p].id) && Selects(sub.criteria, rows[p]) {
      assert Target(db.accounts, sub.criteria, key, rows[p]);
    }
  }

  // ----- the two views of the join table -----

  function GroupIDs(t: AccountTree): set<int> { set g | g in t.groups :: g.id }

  /** The groups that the loaded join rows of an account lead to. */
  function GroupIDsOfJoins(t: AccountTree): set<int> {
    set j | j in t.accountGroups && j.group.Some? :: j.row.groupID
  }

  ghost predicate SelectsGroup(db: Snapshot, c: Criteria<LeafRow>, g: int) {
    exists r | r in db.groups :: r.id == g && Selects(c, r)
  }

  /** The groups of an account are those that the join table links to it. */
  lemma GroupsAreLinked(db: Snapshot, q: AccountQ, i: nat, g: int)
    requires ValidSnapshot(db) && i < |SelectRows(q.criteria, db.accounts)|
    requires q.withGroups.Some? && Unwindowed(q.withGroups.value.criteria)
    ensures g in GroupIDs(Accounts(db, q)[i]) <==>
            && Linked(db.accountGroups, SelectRows(q.criteria, db.accounts)[i].id, g)
            && SelectsGroup(db, q.withGroups.value.criteria, g)
  {
    var row, batch, sub := SelectRows(q.criteria, db.accounts)[i], ScannedAccounts(db, q), q.withGroups.value;
    SelectedRowInBatch(db, q, i);
    var tree := Accounts(db, q)[i];
    assert tree == AccountNode(db, q, batch, batch[i]);
    GroupBatchIsAlone(db, sub, IDs(batch), row.id);
    LeafColumnsKeep(sub);
    var narrowed := Narrow(sub.criteria, LinkedTo(db.accountGroups, row.id));
    forall r
      ensures r in SelectRows(narrowed, db.groups) <==>
              r in db.groups && Selects(sub.criteria, r) && Linked(db.accountGroups, row.id, r.id)
    {
      SelectComplete(narrowed, db.groups, r);
      NarrowSelects(sub.criteria, LinkedTo(db.accountGroups, row.id), r);
    }
    assert GroupIDs(tree) == set x | x in GroupsAlone(db, sub, row.id) :: x.id;
    if Linked(db.accountGroups, row.id, g) && SelectsGroup(db, sub.criteria, g) {
      var r :| r in db.groups && r.id == g && Selects(sub.criteria, r);
      assert ProjectLeaf(LeafColumns(sub), r) in GroupsAlone(db, sub, row.id);
    }
  }

  ghost predicate SelectsJoin(db: Snapshot, c: Criteria<JoinTableRow>, account: int, group: int) {
    exists x | x in db.accountGroups :: x.accountID == account && x.groupID == group && Selects(c, x)
  }

  /** The join rows of an account are those the edge query selects for it, each with its group. */
  lemma LoadedJoinRows(db: Snapshot, q: AccountQ, i: nat)
    requires ValidSnapshot(db) && i < |SelectRows(q.criteria, db.accounts)|
    requires q.withAccountGroups.Some? && q.withAccountGroups.value.withGroup.Some?
    requires Unwindowed(q.withAccountGroups.value.criteria) && JoinEdgesUnwindowed(q.withAccountGroups.value)
    ensures
      var sub, joins := q.withAccountGroups.value, Accounts(db, q)[i].accountGroups;
      var rows := SelectRows(Narrow(sub.criteria, AccountOf(SelectRows(q.criteria, db.accounts)[i].id)),
                             db.accountGroups);
      |joins| == |rows| && forall m | 0 <= m < |rows| ::
        && joins[m].row.groupID == rows[m].groupID
        && (joins[m].group.Some? <==> SelectsGroup(db, sub.withGroup.value.criteria, rows[m].groupID))
  {
    var row, batch, sub := SelectRows(q.criteria, db.accounts)[i], ScannedAccounts(db, q), q.withAccountGroups.value;
    SelectedRowInBatch(db, q, i);
    var joins, keyed := Accounts(db, q)[i].accountGroups, KeyedJoin(sub);
    assert Accounts(db, q)[i] == AccountNode(db, q, batch, batch[i]);
    JoinsAgree(false, db, sub, IDs(batch), row.id);
    var rows := SelectRows(Narrow(keyed.criteria, AccountOf(row.id)), db.accountGroups);
    forall m | 0 <= m < |rows|
      ensures joins[m].row.groupID == rows[m].groupID
      ensures joins[m].group.Some? <==> SelectsGroup(db, sub.withGroup.value.criteria, rows[m].groupID)
    {
      assert JoinViewOf(false, joins[m]) == JoinAlone(false, db, keyed, rows[m]);
      JoinGroupIsTarget(db, keyed, rows[m]);
    }
  }

  lemma JoinGroupIsTarget(db: Snapshot, q: JoinQ, row: JoinTableRow)
    requires ValidSnapshot(db) && q.withGroup.Some? && Unwindowed(q.withGroup.value.criteria)
    ensures JoinAlone(false, db, q, row).row.groupID == row.groupID
    ensures JoinAlone(false, db, q, row).group.Some? <==> SelectsGroup(db, q.withGroup.value.criteria, row.groupID)
  {
    LeafLookupIsTarget(db.groups, q.withGroup.value, row.groupID);
    if r :| r in db.groups && r.id == row.groupID && Selects(q.withGroup.value.criteria, r) {
      assert LeafTarget(db.groups, q.withGroup.value.criteria, Some(row.groupID), r);
    }
  }

  lemma JoinSelectedFor(db: Snapshot, c: Criteria<JoinTableRow>, account: int, group: int)
    requires Unwindowed(c)
    ensures SelectsJoin(db, c, account, group) <==>
            exists x | x in SelectRows(Narrow(c, AccountOf(account)), db.accountGroups) :: x.groupID == group
  {
    var narrowed := Narrow(c, AccountOf(account));
    forall x
      ensures x in SelectRows(narrowed, db.accountGroups) <==>
              x in db.accountGroups && Selects(c, x) && x.accountID == account
    {
      SelectComplete(narrowed, db.accountGroups, x);
      NarrowSelects(c, AccountOf(account), x);
    }
  }

  lemma GroupsBehindJoins(db: Snapshot, c: Criteria<LeafRow>, t: AccountTree, rows: seq<JoinTableRow>, g: int)
    requires |t.accountGroups| == |rows| && forall m | 0 <= m < |rows| ::
      && t.accountGroups[m].row.groupID == rows[m].groupID
      && (t.accountGroups[m].group.Some? <==> SelectsGroup(db, c, rows[m].groupID))
    ensures g in GroupIDsOfJoins(t) <==> (exists x | x in rows :: x.groupID == g) && SelectsGroup(db, c, g)
  {
    if g in GroupIDsOfJoins(t) {
      var m :| 0 <= m < |rows| && t.accountGroups[m].group.Some? && t.accountGroups[m].row.groupID == g;
      assert rows[m] in rows;
    }
    if x :| x in rows && x.groupID == g && SelectsGroup(db, c, g) {
      var m :| 0 <= m < |rows| && rows[m] == x;
      assert t.accountGroups[m] in t.accountGroups;
    }
  }

  /** The group of a join row is there exactly when the group query selects it. */
  lemma JoinsLeadToGroups(db: Snapshot, q: AccountQ, i: nat, g: int)
    requires ValidSnapshot(db) && i < |SelectRows(q.criteria, db.accounts)|
    requires q.withAccountGroups.Some? && q.withAccountGroups.value.withGroup.Some?
    requires Unwindowed(q.withAccountGroups.value.criteria) && JoinEdgesUnwindowed(q.withAccountGroups.value)
    ensures g in GroupIDsOfJoins(Accounts(db, q)[i]) <==>
            && SelectsJoin(db, q.withAccountGroups.value.criteria, SelectRows(q.criteria, db.accounts)[i].id, g)
            && SelectsGroup(db, q.withAccountGroups.value.withGroup.value.criteria, g)
  {
    var row, sub := SelectRows(q.criteria, db.accounts)[i], q.withAccountGroups.value;
    var tree, narrowed := Accounts(db, q)[i], Narrow(sub.criteria, AccountOf(row.id));
    var rows := SelectRows(narrowed, db.accountGroups);
    LoadedJoinRows(db, q, i);
    JoinSelectedFor(db, sub.criteria, row.id, g);
    GroupsBehindJoins(db, sub.withGroup.value.criteria, tree, rows, g);
  }

  /** The two views of the join table agree: the groups of an account are the groups its join rows
      lead to, if both views ask for the same groups and the second does not leave out join rows. */
  lemma TwoViewsAgree(db: Snapshot, q: AccountQ, i: nat)
    requires ValidSnapshot(db) && i < |SelectRows(q.criteria, db.accounts)|
    requires q.withGroups.Some? && Unwindowed(q.withGroups.value.criteria)
    requires q.withAccountGroups.Some? && q.withAccountGroups.value.withGroup.Some?
    requires Unwindowed(q.withAccountGroups.value.criteria) && JoinEdgesUnwindowed(q.withAccountGroups.value)
    requires forall x | x in db.accountGroups :: Selects(q.withAccountGroups.value.criteria, x)
    requires forall r | r in db.groups ::
      Selects(q.withGroups.value.criteria, r) <==> Selects(q.withAccountGroups.value.withGroup.value.criteria, r)
    ensures GroupIDs(Accounts(db, q)[i]) == GroupIDsOfJoins(Accounts(db, q)[i])
  {
    var tree := Accounts(db, q)[i];
    forall g ensures g in GroupIDs(tree) <==> g in GroupIDsOfJoins(tree) {
      GroupsAreLinked(db, q, i, g);
      JoinsLeadToGroups(db, q, i, g);
    }
  }
}
