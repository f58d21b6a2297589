/** The loaded objects seen by their user: how deep the object graph is, and what asking an object
    for one of its edges answers. */
module Access {
  import opened Wrappers
  import opened Relational
  import opened Schema
  import opened Cells
  import opened Joins
  import opened Index
  import opened Queries
  import opened Stages
  import opened Entities
  import opened Grouping
  import opened NestedLoop
  import opened Relations

  // ----- depth -----

  function Depth(t: AccountTree): nat {
    1 + Max(
      if t.groups != [] || t.proxy.Some? then 1 else 0,
      Max(if t.parent.Some? then Depth(t.parent.value) else 0,
          Max(MaxDepth(t.children), MaxJoinDepth(t.accountGroups))))
  }

  function MaxDepth(trees: seq<AccountTree>): nat {
    if trees == [] then 0 else Max(Depth(trees[0]), MaxDepth(trees[1..]))
  }

  function JoinDepth(t: JoinTree): nat {
    1 + Max(if t.group.Some? then 1 else 0, if t.account.Some? then Depth(t.account.value) else 0)
  }

  function MaxJoinDepth(trees: seq<JoinTree>): nat {
    if trees == [] then 0 else Max(JoinDepth(trees[0]), MaxJoinDepth(trees[1..]))
  }

  lemma {:induction false} MaxDepthAtMost(trees: seq<AccountTree>, n: nat)
    requires forall i | 0 <= i < |trees| :: Depth(trees[i]) <= n
    ensures MaxDepth(trees) <= n
  {
    if trees == [] {
    } else {
      MaxDepthAtMost(trees[1..], n);
    }
  }

  lemma {:induction false} MaxJoinDepthAtMost(trees: seq<JoinTree>, n: nat)
    requires forall i | 0 <= i < |trees| :: JoinDepth(trees[i]) <= n
    ensures MaxJoinDepth(trees) <= n
  {
    if trees == [] {
    } else {
      MaxJoinDepthAtMost(trees[1..], n);
    }
  }

  lemma {:induction false} MaxDepthAtLeast(trees: seq<AccountTree>, t: AccountTree)
    requires t in trees
    ensures Depth(t) <= MaxDepth(trees)
  {
    if t != trees[0] { MaxDepthAtLeast(trees[1..], t); }
  }

  lemma {:induction false} MaxJoinDepthAtLeast(trees: seq<JoinTree>, t: JoinTree)
    requires t in trees
    ensures JoinDepth(t) <= MaxJoinDepth(trees)
  {
    if t != trees[0] { MaxJoinDepthAtLeast(trees[1..], t); }
  }

  lemma FoundDepth(db: Snapshot, q: AccountQ, k: int)
    ensures FindLast(Accounts(db, q), TreeID, k).Some? ==>
      Depth(FindLast(Accounts(db, q), TreeID, k).value) <= Height(q)
    decreases Height(q), 3
  {
    DepthBounded(db, q);
  }

  lemma ChildrenDepth(db: Snapshot, q: AccountQ, id: int)
    ensures MaxDepth(ChildrenOf(id, Accounts(db, q))) <= Height(q)
    decreases Height(q), 3
  {
    var trees := Accounts(db, q);
    var at := WithKeyRelated(trees, trees, Map(ParentKey, trees), id);
    DepthBounded(db, q);
    MaxDepthAtMost(ChildrenOf(id, trees), Height(q));
  }

  lemma JoinsDepth(db: Snapshot, q: JoinQ, id: int)
    ensures MaxJoinDepth(JoinsOf(id, JoinNodes(db, q))) <= JoinHeight(q)
    decreases JoinHeight(q), 3
  {
    var trees := JoinNodes(db, q);
    var at := WithKeyRelated(trees, trees, Map(JoinKey, trees), id);
    JoinDepthBounded(db, q);
    MaxJoinDepthAtMost(JoinsOf(id, trees), JoinHeight(q));
  }

  /** Whatever cycles the data has, a loaded tree is at most as deep as the tree of queries is high. */
  lemma {:induction false} DepthBounded(db: Snapshot, q: AccountQ)
    ensures forall i | 0 <= i < |Accounts(db, q)| :: Depth(Accounts(db, q)[i]) <= Height(q)
    decreases Height(q), 2
  {
    var batch := ScannedAccounts(db, q);
    forall i | 0 <= i < |batch| ensures Depth(AccountNode(db, q, batch, batch[i])) <= Height(q) {
      NodeDepth(db, q, batch, batch[i]);
    }
  }

  lemma ParentDepth(db: Snapshot, q: AccountQ, batch: seq<AccountRow>, row: AccountRow)
    ensures
      var parent := AccountNode(db, q, batch, row).parent;
      parent.Some? ==> Depth(parent.value) < Height(q)
    decreases Height(q), 0
  {
    if q.withParent.Some? && row.parentAccountID.Some? {
      FoundDepth(db, ParentQuery(q, batch), row.parentAccountID.value);
    }
  }

  lemma ListsDepth(db: Snapshot, q: AccountQ, batch: seq<AccountRow>, row: AccountRow)
    ensures MaxDepth(AccountNode(db, q, batch, row).children) < Height(q)
    ensures MaxJoinDepth(AccountNode(db, q, batch, row).accountGroups) < Height(q)
    decreases Height(q), 0
  {
    if q.withChildren.Some? { ChildrenDepth(db, ChildrenQuery(q, batch), row.id); }
    if q.withAccountGroups.Some? { JoinsDepth(db, AccountGroupsQuery(q, batch), row.id); }
  }

  lemma LeafHeight(db: Snapshot, q: AccountQ, batch: seq<AccountRow>, row: AccountRow)
    ensures
      var t := AccountNode(db, q, batch, row);
      t.groups != [] || t.proxy.Some? ==> 2 <= Height(q)
  {
  }

  lemma NodeDepth(db: Snapshot, q: AccountQ, batch: seq<AccountRow>, row: AccountRow)
    ensures Depth(AccountNode(db, q, batch, row)) <= Height(q)
    decreases Height(q), 1
  {
    LeafHeight(db, q, batch, row);
    ParentDepth(db, q, batch, row);
    ListsDepth(db, q, batch, row);
    DepthFrom(AccountNode(db, q, batch, row), Height(q));
  }

  lemma DepthFrom(t: AccountTree, h: nat)
    requires 1 <= h && (t.groups != [] || t.proxy.Some? ==> 2 <= h) && (t.parent.Some? ==> Depth(t.parent.value) < h)
    requires MaxDepth(t.children) < h && MaxJoinDepth(t.accountGroups) < h
    ensures Depth(t) <= h
  {
  }

  lemma {:induction false} JoinDepthBounded(db: Snapshot, q: JoinQ)
    ensures forall i | 0 <= i < |JoinNodes(db, q)| :: JoinDepth(JoinNodes(db, q)[i]) <= JoinHeight(q)
    decreases JoinHeight(q), 2
  {
    var batch := ScannedJoins(db, q);
    forall i | 0 <= i < |batch| ensures JoinDepth(JoinNode(db, q, batch, batch[i])) <= JoinHeight(q) {
      if q.withAccount.Some? { FoundDepth(db, JoinAccountQuery(q, batch), batch[i].accountID); }
    }
  }

  // ----- the object graph -----

  /** Whether an edge leads from one account object to another, possibly through a join row. */
  ghost predicate Step(a: Account, b: Account, w: World)
    reads a, w.joins.Keys
  {
    a.parent == b || b in a.children || exists j | j in a.accountGroups && j in w.joins :: j.account == b
  }

  ghost predicate Path(path: seq<Account>, w: World)
    reads w.accounts.Keys, w.joins.Keys
  {
    && (forall i | 0 <= i < |path| :: path[i] in w.accounts)
    && forall i | 0 <= i < |path| - 1 :: Step(path[i], path[i + 1], w)
  }

  /** An edge of a closed world leads to an object with a shallower tree, so to another object. */
  lemma StepDescends(a: Account, b: Account, w: World)
    requires Closed(w) && a in w.accounts && Step(a, b, w)
    ensures b in w.accounts && Depth(w.accounts[b]) < Depth(w.accounts[a])
  {
    var t := w.accounts[a];
    assert AccountOK(a, t, w);
    if a.parent == b {
    } else if b in a.children {
      var i :| 0 <= i < |a.children| && a.children[i] == b;
      MaxDepthAtLeast(t.children, t.children[i]);
    } else {
      var j :| j in a.accountGroups && j in w.joins && j.account == b;
      var i :| 0 <= i < |a.accountGroups| && a.accountGroups[i] == j;
      assert JoinOK(j, w.joins[j], w);
      MaxJoinDepthAtLeast(t.accountGroups, t.accountGroups[i]);
    }
  }

  /** No path through the loaded objects is longer than the tree of its first object is deep. */
  lemma {:induction false} PathBounded(path: seq<Account>, w: World)
    requires Closed(w) && Path(path, w) && path != []
    ensures |path| <= Depth(w.accounts[path[0]])
    decreases |path|
  {
    if |path| == 1 {
    } else {
      assert Step(path[0], path[1], w);
      StepDescends(path[0], path[1], w);
      var rest := path[1..];
      assert forall i | 0 <= i < |rest| - 1 :: rest[i] == path[i + 1] && Step(path[i + 1], path[i + 2], w);
      PathBounded(rest, w);
    }
  }

  /** An account object that stands for the i-th result of a query. */
  ghost predicate StandsFor(a: Account, db: Snapshot, q: AccountQ, i: nat, w: World)
    reads w.accounts.Keys, w.joins.Keys
  {
    Closed(w) && i < |SelectRows(q.criteria, db.accounts)| == |Accounts(db, q)| &&
    a in w.accounts && w.accounts[a] == Accounts(db, q)[i]
  }

  /** Every chain of edges from a result is at most as long as the tree of queries is high. */
  lemma ResultsAreShallow(a: Account, db: Snapshot, q: AccountQ, i: nat, w: World, path: seq<Account>)
    requires StandsFor(a, db, q, i, w) && Path(path, w) && path != [] && path[0] == a
    ensures |path| <= Height(q)
  {
    PathBounded(path, w);
    DepthBounded(db, q);
  }

  lemma LoadedFlags(db: Snapshot, q: AccountQ, i: nat)
    requires i < |Accounts(db, q)|
    ensures Accounts(db, q)[i].loaded == LoadedOf(q)
    ensures q.withProxy.None? ==> Accounts(db, q)[i].proxy == None
    ensures q.withParent.None? ==> Accounts(db, q)[i].parent == None
  {
  }

  /** What a query brings back of a row: the columns that it selects, which are all if it does not choose. */
  ghost predicate RowOfQuery(q: AccountQ, row: AccountRow, got: AccountRow) {
    && got == ProjectAccount(ColumnsOf(q), row)
    && (q.fields == [] && WellTyped(row) ==> got == row)
  }

  ghost predicate LeafOfQuery(q: LeafQ, row: LeafRow, got: LeafRow) {
    && got == ProjectLeaf(LeafColumns(q), row)
    && (SelectsWhole(q, row) ==> got == row)
  }

  lemma TypedApart(row: AccountRow)
    requires WellTyped(row)
    ensures KeysApart(row)
  {
    forall c | c in row.attrs ensures !c.OtherColumn? { assert Fits(AccountKind(c), row.attrs[c]); }
  }

  lemma RowIsOfQuery(q: AccountQ, row: AccountRow)
    ensures RowOfQuery(q, row, ProjectAccount(ColumnsOf(q), row))
  {
    if q.fields == [] && WellTyped(row) {
      TypedApart(row);
      WholeAccount(q, row);
    }
  }

  lemma LeafIsOfQuery(q: LeafQ, row: LeafRow)
    ensures LeafOfQuery(q, row, ProjectLeaf(LeafColumns(q), row))
  {
    if SelectsWhole(q, row) { WholeLeaf(q, row); }
  }

  /** Asking for the parent answers the row with the parent's id if the snapshot has one that the edge
      query selects, "not found" if the edge was requested and there is none, and "not loaded" if the
      edge was never requested. */
  lemma ParentAccess(a: Account, db: Snapshot, q: AccountQ, i: nat, w: World)
    requires StandsFor(a, db, q, i, w) && ValidSnapshot(db)
    requires q.withParent.Some? ==> Unwindowed(q.withParent.value.criteria)
    ensures a.ParentOrErr() == Failure(NotLoaded("parent")) <==> q.withParent.None?
    ensures
      var key := SelectRows(q.criteria, db.accounts)[i].parentAccountID;
      q.withParent.Some? ==>
        var sub := q.withParent.value;
        && (a.ParentOrErr() == Failure(NotFound("account")) <==>
              !exists r | r in db.accounts :: Target(db.accounts, sub.criteria, key, r))
        && (forall r | r in db.accounts && Target(db.accounts, sub.criteria, key, r) ::
              a.ParentOrErr().Success? && RowOfQuery(sub, r, a.ParentOrErr().value.Row()))
  {
    var t := w.accounts[a];
    assert AccountOK(a, t, w);
    LoadedFlags(db, q, i);
    if q.withParent.Some? {
      forall r { RowIsOfQuery(q.withParent.value, r); }
      ParentIsTarget(db, q, i);
      if a.parent != null { assert AccountOK(a.parent, w.accounts[a.parent], w); }
    }
  }

  lemma ProxyAccess(a: Account, db: Snapshot, q: AccountQ, i: nat, w: World)
    requires StandsFor(a, db, q, i, w) && ValidSnapshot(db)
    requires q.withProxy.Some? ==> Unwindowed(q.withProxy.value.criteria)
    ensures a.ProxyOrErr() == Failure(NotLoaded("proxy")) <==> q.withProxy.None?
    ensures
      var key := SelectRows(q.criteria, db.accounts)[i].proxyID;
      q.withProxy.Some? ==>
        var sub := q.withProxy.value;
        && (a.ProxyOrErr() == Failure(NotFound("proxy")) <==>
              !exists r | r in db.proxies :: LeafTarget(db.proxies, sub.criteria, key, r))
        && (forall r | r in db.proxies && LeafTarget(db.proxies, sub.criteria, key, r) ::
              a.ProxyOrErr().Success? && LeafOfQuery(sub, r, a.ProxyOrErr().value.row))
  {
    var t := w.accounts[a];
    assert AccountOK(a, t, w);
    LoadedFlags(db, q, i);
    if q.withProxy.Some? {
      forall r { LeafIsOfQuery(q.withProxy.value, r); }
      ProxyIsTarget(db, q, i);
    }
  }

  predicate HasLeaf(leaves: seq<Leaf>, g: int) {
    exists l | l in leaves :: l.row.id == g
  }

  /** Asking for the groups answers those that the join table links to the account and the edge query selects, if
      the edge was requested. */
  lemma GroupsAccess(a: Account, db: Snapshot, q: AccountQ, i: nat, w: World)
    requires StandsFor(a, db, q, i, w) && ValidSnapshot(db)
    requires q.withGroups.Some? ==> Unwindowed(q.withGroups.value.criteria)
    ensures a.GroupsOrErr() == Failure(NotLoaded("groups")) <==> q.withGroups.None?
    ensures q.withGroups.Some? ==>
      && a.GroupsOrErr().Success?
      && forall g :: HasLeaf(a.GroupsOrErr().value, g) <==>
           && Linked(db.accountGroups, SelectRows(q.criteria, db.accounts)[i].id, g)
           && SelectsGroup(db, q.withGroups.value.criteria, g)
  {
    var t := w.accounts[a];
    assert AccountOK(a, t, w);
    LoadedFlags(db, q, i);
    if q.withGroups.Some? {
      forall g ensures HasLeaf(a.groups, g) <==> g in GroupIDs(t) {
        if l :| l in a.groups && l.row.id == g {
          var m :| 0 <= m < |a.groups| && a.groups[m] == l;
          assert t.groups[m] in t.groups;
        }
        if x :| x in t.groups && x.id == g {
          var m :| 0 <= m < |t.groups| && t.groups[m] == x;
          assert a.groups[m] in a.groups;
        }
        GroupsAreLinked(db, q, i, g);
      }
      forall g { GroupsAreLinked(db, q, i, g); }
    }
  }

  predicate HasAccount(accounts: seq<Account>, id: int)
    reads accounts
  {
    exists c | c in accounts :: c.id == id
  }

  /** Asking for the children answers the selected rows that name the account, if the edge was requested. */
  lemma ChildrenAccess(a: Account, db: Snapshot, q: AccountQ, i: nat, w: World)
    requires StandsFor(a, db, q, i, w) && ValidSnapshot(db)
    requires q.withChildren.Some? ==> Unwindowed(q.withChildren.value.criteria)
    ensures a.ChildrenOrErr() == Failure(NotLoaded("children")) <==> q.withChildren.None?
    ensures q.withChildren.Some? ==>
      && a.ChildrenOrErr().Success?
      && forall c | c in db.accounts :: HasAccount(a.ChildrenOrErr().value, c.id) <==>
           && c.parentAccountID == Some(SelectRows(q.criteria, db.accounts)[i].id)
           && Selects(q.withChildren.value.criteria, c)
  {
    var t := w.accounts[a];
    assert AccountOK(a, t, w);
    LoadedFlags(db, q, i);
    if q.withChildren.Some? {
      forall c | c in db.accounts
        ensures HasAccount(a.children, c.id) <==> HasChild(t, c.id)
      {
        ChildObjects(a, t, w, c.id);
      }
      forall c | c in db.accounts { ChildIsSelected(db, q, i, c); }
    }
  }

  lemma ChildObjects(a: Account, t: AccountTree, w: World, id: int)
    requires Closed(w) && AccountOK(a, t, w)
    ensures HasAccount(a.children, id) <==> HasChild(t, id)
  {
    forall m | 0 <= m < |a.children| ensures a.children[m].id == t.children[m].row.id {
      assert AccountOK(a.children[m], t.children[m], w);
    }
    if c :| c in a.children && c.id == id {
      var m :| 0 <= m < |a.children| && a.children[m] == c;
      assert t.children[m] in t.children;
    }
    if c :| c in t.children && c.row.id == id {
      var m :| 0 <= m < |t.children| && t.children[m] == c;
      assert a.children[m] in a.children;
    }
  }

  /** What a query for the join rows of one account brings back, row by row. */
  ghost predicate JoinRowsOfQuery(db: Snapshot, q: JoinQ, account: int, got: seq<JoinTableRow>) {
    var rows := SelectRows(Narrow(q.criteria, AccountOf(account)), db.accountGroups);
    && got == seq(|rows|, m requires 0 <= m < |rows| => ProjectJoin(JoinColumnsOf(KeyedJoin(q)), rows[m]))
    && (q.fields == [] ==> got == rows)
  }

  function TreeRows(trees: seq<JoinTree>): seq<JoinTableRow> {
    seq(|trees|, m requires 0 <= m < |trees| => trees[m].row)
  }

  lemma JoinRowsLoaded(db: Snapshot, q: AccountQ, i: nat)
    requires ValidSnapshot(db) && i < |SelectRows(q.criteria, db.accounts)| == |Accounts(db, q)|
    requires q.withAccountGroups.Some?
    requires Unwindowed(q.withAccountGroups.value.criteria) && JoinEdgesUnwindowed(q.withAccountGroups.value)
    ensures JoinRowsOfQuery(db, q.withAccountGroups.value, SelectRows(q.criteria, db.accounts)[i].id,
                            TreeRows(Accounts(db, q)[i].accountGroups))
  {
    var row, batch, sub := SelectRows(q.criteria, db.accounts)[i], ScannedAccounts(db, q), q.withAccountGroups.value;
    SelectedRowInBatch(db, q, i);
    var joins, keyed := Accounts(db, q)[i].accountGroups, KeyedJoin(sub);
    assert Accounts(db, q)[i] == AccountNode(db, q, batch, batch[i]);
    JoinsAgree(false, db, sub, IDs(batch), row.id);
    var rows := SelectRows(Narrow(sub.criteria, AccountOf(row.id)), db.accountGroups);
    forall m | 0 <= m < |rows| ensures joins[m].row == ProjectJoin(JoinColumnsOf(keyed), rows[m]) {
      assert JoinViewOf(false, joins[m]) == JoinAlone(false, db, keyed, rows[m]);
    }
    if sub.fields == [] {
      forall m | 0 <= m < |rows| { WholeJoinRow(keyed, rows[m]); }
    }
  }

  function RowsOf(joins: seq<AccountGroup>): seq<JoinTableRow>
    reads joins
  {
    seq(|joins|, m requires 0 <= m < |joins| reads joins => joins[m].Row())
  }

  /** Asking for the join rows answers those that the edge query selects for the account, in its order, if the edge
      was requested. */
  lemma AccountGroupsAccess(a: Account, db: Snapshot, q: AccountQ, i: nat, w: World)
    requires StandsFor(a, db, q, i, w) && ValidSnapshot(db)
    requires q.withAccountGroups.Some? ==>
      Unwindowed(q.withAccountGroups.value.criteria) && JoinEdgesUnwindowed(q.withAccountGroups.value)
    ensures a.AccountGroupsOrErr() == Failure(NotLoaded("account_groups")) <==> q.withAccountGroups.None?
    ensures q.withAccountGroups.Some? ==>
      && a.AccountGroupsOrErr().Success?
      && JoinRowsOfQuery(db, q.withAccountGroups.value, SelectRows(q.criteria, db.accounts)[i].id,
                         RowsOf(a.AccountGroupsOrErr().value))
  {
    var t := w.accounts[a];
    assert AccountOK(a, t, w);
    LoadedFlags(db, q, i);
    if q.withAccountGroups.Some? {
      JoinRowsLoaded(db, q, i);
      JoinObjects(a, t, w);
    }
  }

  lemma JoinObjects(a: Account, t: AccountTree, w: World)
    requires Closed(w) && AccountOK(a, t, w)
    ensures RowsOf(a.accountGroups) == TreeRows(t.accountGroups)
  {
    forall m | 0 <= m < |a.accountGroups| ensures a.accountGroups[m].Row() == t.accountGroups[m].row {
      assert JoinOK(a.accountGroups[m], t.accountGroups[m], w);
    }
  }

  /** A join row object that stands for the i-th result of a query on the join table. */
  ghost predicate JoinStandsFor(j: AccountGroup, db: Snapshot, q: JoinQ, i: nat, w: World)
    reads w.accounts.Keys, w.joins.Keys
  {
    Closed(w) && i < |SelectRows(q.criteria, db.accountGroups)| == |JoinNodes(db, q)| &&
    j in w.joins && w.joins[j] == JoinNodes(db, q)[i]
  }

  lemma JoinEdges(db: Snapshot, q: JoinQ, i: nat)
    requires i < |SelectRows(q.criteria, db.accountGroups)|
    ensures |JoinNodes(db, q)| == |SelectRows(q.criteria, db.accountGroups)|
    ensures
      var t, row, batch := JoinNodes(db, q)[i], SelectRows(q.criteria, db.accountGroups)[i], ScannedJoins(db, q);
      && t.loaded == JoinLoadedOf(q)
      && (q.withAccount.Some? ==>
            row.accountID in FirstSeen(AccountKeys(batch)) &&
            t.account == FindLast(Accounts(db, JoinAccountQuery(q, batch)), TreeID, row.accountID))
      && (q.withGroup.Some? ==>
            row.groupID in FirstSeen(GroupKeys(batch)) &&
            t.group == FindLast(Leaves(db.groups, JoinGroupQuery(q, batch)), LeafKey, row.groupID))
      && (q.withAccount.None? ==> t.account == None) && (q.withGroup.None? ==> t.group == None)
  {
    var rows, batch := SelectRows(q.criteria, db.accountGroups), ScannedJoins(db, q);
    assert JoinNodes(db, q)[i] == JoinNode(db, q, batch, batch[i]);
    if q.withAccount.Some? { assert AccountKeys(batch)[i] == Some(rows[i].accountID); }
    if q.withGroup.Some? { assert GroupKeys(batch)[i] == Some(rows[i].groupID); }
  }

  /** The same for the edges of a join row, whose keys are never nil. */
  lemma JoinAccountAccess(j: AccountGroup, db: Snapshot, q: JoinQ, i: nat, w: World)
    requires JoinStandsFor(j, db, q, i, w) && ValidSnapshot(db)
    requires q.withAccount.Some? ==> Unwindowed(q.withAccount.value.criteria)
    ensures j.AccountOrErr() == Failure(NotLoaded("account")) <==> q.withAccount.None?
    ensures
      var key := Some(SelectRows(q.criteria, db.accountGroups)[i].accountID);
      q.withAccount.Some? ==>
        var sub := q.withAccount.value;
        && (j.AccountOrErr() == Failure(NotFound("account")) <==>
              !exists r | r in db.accounts :: Target(db.accounts, sub.criteria, key, r))
        && (forall r | r in db.accounts && Target(db.accounts, sub.criteria, key, r) ::
              j.AccountOrErr().Success? && RowOfQuery(sub, r, j.AccountOrErr().value.Row()))
  {
    var t := w.joins[j];
    assert JoinOK(j, t, w);
    var rows, batch := SelectRows(q.criteria, db.accountGroups), ScannedJoins(db, q);
    JoinEdges(db, q, i);
    if q.withAccount.Some? {
      forall r { RowIsOfQuery(q.withAccount.value, r); }
      LookupIsTarget(db, q.withAccount.value, FirstSeen(AccountKeys(batch)), rows[i].accountID);
      if j.account != null { assert AccountOK(j.account, w.accounts[j.account], w); }
    }
  }

  lemma JoinGroupAccess(j: AccountGroup, db: Snapshot, q: JoinQ, i: nat, w: World)
    requires JoinStandsFor(j, db, q, i, w) && ValidSnapshot(db)
    requires q.withGroup.Some? ==> Unwindowed(q.withGroup.value.criteria)
    ensures j.GroupOrErr() == Failure(NotLoaded("group")) <==> q.withGroup.None?
    ensures
      var key := Some(SelectRows(q.criteria, db.accountGroups)[i].groupID);
      q.withGroup.Some? ==>
        var sub := q.withGroup.value;
        && (j.GroupOrErr() == Failure(NotFound("group")) <==>
              !exists r | r in db.groups :: LeafTarget(db.groups, sub.criteria, key, r))
        && (forall r | r in db.groups && LeafTarget(db.groups, sub.criteria, key, r) ::
              j.GroupOrErr().Success? && LeafOfQuery(sub, r, j.GroupOrErr().value.row))
  {
    var t := w.joins[j];
    assert JoinOK(j, t, w);
    var rows, batch := SelectRows(q.criteria, db.accountGroups), ScannedJoins(db, q);
    JoinEdges(db, q, i);
    if q.withGroup.Some? {
      forall r { LeafIsOfQuery(q.withGroup.value, r); }
      LeafBatchIsLookup(db.groups, q.withGroup.value, FirstSeen(GroupKeys(batch)), rows[i].groupID);
      LeafLookupIsTarget(db.groups, q.withGroup.value, rows[i].groupID);
    }
  }
}
