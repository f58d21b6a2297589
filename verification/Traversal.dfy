/** Traversing an edge with a query of its own against loading it eagerly. */
module Traversal {
  import opened Wrappers
  import opened Relational
  import opened Schema
  import opened Queries
  import opened Stages
  import opened Grouping
  import opened NestedLoop
  import opened Windows

  // ----- traversing instead of loading -----

  /** The accounts that a query built for a traversal selects: its limit and offset are literal. */
  function SqlRows(c: Criteria<AccountRow>, table: seq<AccountRow>): seq<AccountRow> {
    Window(c.limit, c.offset, Filtered(c, table))
  }

  function ReachedFrom(joins: seq<JoinTableRow>, accounts: seq<AccountRow>): LeafRow -> bool {
    (r: LeafRow) => exists a | a in accounts :: Linked(joins, a.id, r.id)
  }

  /** The groups on the other side of the groups edge of a query's accounts. */
  function Traversed(db: Snapshot, q: AccountQ, groups: LeafQ): seq<LeafRow> {
    Leaves(db.groups, WhereLeaf(groups, ReachedFrom(db.accountGroups, SqlRows(q.criteria, db.accounts))))
  }

  function GroupsOf(trees: seq<AccountTree>): set<LeafRow> {
    set i, g | 0 <= i < |trees| && g in trees[i].groups :: g
  }

  /** The groups of all accounts of a query that loads them. */
  function EagerGroups(db: Snapshot, q: AccountQ, groups: LeafQ): set<LeafRow> {
    GroupsOf(Accounts(db, q.(withGroups := Some(groups))))
  }

  /** The accounts that loading reads and traversing does not: a limit of zero is an unset limit to a query
      spec and no row to a selector, and an offset of zero alone comes with the largest limit only there. */
  function Unread(c: Criteria<AccountRow>, table: seq<AccountRow>): seq<AccountRow> {
    var all := Filtered(c, table);
    if c.limit == Some(0) then SelectRows(c, table)
    else if c.limit == None && c.offset == Some(0) && |all| > MAX_INT32 then all[MAX_INT32..]
    else []
  }

  lemma SelectIsSqlAndUnread(c: Criteria<AccountRow>, table: seq<AccountRow>)
    ensures SelectRows(c, table) == SqlRows(c, table) + Unread(c, table)
  {
    var all := Filtered(c, table);
    assert all[0..] == all;
  }

  /** A group query finds a group in a row that the join table links to an account. */
  ghost predicate Reaches(db: Snapshot, groups: LeafQ, a: AccountRow, r: LeafRow, g: LeafRow) {
    Linked(db.accountGroups, a.id, r.id) && Selects(groups.criteria, r) && g == ProjectLeaf(LeafColumns(groups), r)
  }

  lemma TraversedMember(db: Snapshot, q: AccountQ, groups: LeafQ, g: LeafRow)
    requires Unwindowed(groups.criteria)
    ensures g in Traversed(db, q, groups) <==>
            exists a, r | a in SqlRows(q.criteria, db.accounts) && r in db.groups :: Reaches(db, groups, a, r, g)
  {
    var reached := ReachedFrom(db.accountGroups, SqlRows(q.criteria, db.accounts));
    var p := WhereLeaf(groups, reached);
    var rows := SelectRows(p.criteria, db.groups);
    forall r ensures r in rows <==> r in db.groups && Selects(groups.criteria, r) && reached(r) {
      SelectComplete(p.criteria, db.groups, r);
      NarrowSelects(groups.criteria, reached, r);
    }
    forall r | r in rows ensures ProjectLeaf(LeafColumns(groups), r) in Traversed(db, q, groups) {
      var m :| 0 <= m < |rows| && rows[m] == r;
      assert Traversed(db, q, groups)[m] == ProjectLeaf(LeafColumns(groups), r);
    }
    if g in Traversed(db, q, groups) {
      var m :| 0 <= m < |rows| && Traversed(db, q, groups)[m] == g;
      assert rows[m] in rows;
      var a :| a in SqlRows(q.criteria, db.accounts) && Linked(db.accountGroups, a.id, rows[m].id);
      assert Reaches(db, groups, a, rows[m], g);
    }
  }

  lemma GroupsReach(db: Snapshot, q: AccountQ, i: nat, g: LeafRow)
    requires ValidSnapshot(db) && i < |SelectRows(q.criteria, db.accounts)|
    requires q.withGroups.Some? && Unwindowed(q.withGroups.value.criteria)
    ensures |Accounts(db, q)| == |SelectRows(q.criteria, db.accounts)|
    ensures g in Accounts(db, q)[i].groups <==>
            exists r | r in db.groups :: Reaches(db, q.withGroups.value, SelectRows(q.criteria, db.accounts)[i], r, g)
  {
    var row, batch, sub := SelectRows(q.criteria, db.accounts)[i], ScannedAccounts(db, q), q.withGroups.value;
    SelectedRowInBatch(db, q, i);
    assert Accounts(db, q)[i] == AccountNode(db, q, batch, batch[i]);
    GroupBatchIsAlone(db, sub, IDs(batch), row.id);
    assert g in Accounts(db, q)[i].groups <==> g in GroupsAlone(db, sub, row.id);
    var narrowed := Narrow(sub.criteria, LinkedTo(db.accountGroups, row.id));
    forall r
      ensures r in SelectRows(narrowed, db.groups) <==>
              r in db.groups && Selects(sub.criteria, r) && Linked(db.accountGroups, row.id, r.id)
    {
      SelectComplete(narrowed, db.groups, r);
      NarrowSelects(sub.criteria, LinkedTo(db.accountGroups, row.id), r);
    }
  }

  lemma UnionReaches(db: Snapshot, groups: LeafQ, rows: seq<AccountRow>, trees: seq<AccountTree>, g: LeafRow)
    requires |trees| == |rows|
    requires forall i | 0 <= i < |rows| ::
      g in trees[i].groups <==> exists r | r in db.groups :: Reaches(db, groups, rows[i], r, g)
    ensures g in GroupsOf(trees) <==> exists a, r | a in rows && r in db.groups :: Reaches(db, groups, a, r, g)
  {
    if g in GroupsOf(trees) {
      var i :| 0 <= i < |trees| && g in trees[i].groups;
      assert rows[i] in rows;
    }
    if a, r :| a in rows && r in db.groups && Reaches(db, groups, a, r, g) {
      var i :| 0 <= i < |rows| && rows[i] == a;
      assert g in trees[i].groups;
    }
  }

  lemma EagerMember(db: Snapshot, q: AccountQ, groups: LeafQ, g: LeafRow)
    requires ValidSnapshot(db) && Unwindowed(groups.criteria)
    ensures g in EagerGroups(db, q, groups) <==>
            exists a, r | a in SelectRows(q.criteria, db.accounts) && r in db.groups :: Reaches(db, groups, a, r, g)
  {
    var w := q.(withGroups := Some(groups));
    var rows, trees := SelectRows(q.criteria, db.accounts), Accounts(db, w);
    forall i | 0 <= i < |rows|
      ensures g in trees[i].groups <==> exists r | r in db.groups :: Reaches(db, groups, rows[i], r, g)
    {
      GroupsReach(db, w, i, g);
    }
    UnionReaches(db, groups, rows, trees, g);
  }

  /** Every group behind an account that only loading reads is also behind one that traversing reads. */
  ghost predicate NothingMissed(db: Snapshot, q: AccountQ, groups: LeafQ) {
    forall a, r | a in Unread(q.criteria, db.accounts) && r in db.groups ::
      Linked(db.accountGroups, a.id, r.id) && Selects(groups.criteria, r) ==>
      ReachedFrom(db.accountGroups, SqlRows(q.criteria, db.accounts))(r)
  }

  /** Projections of groups are told apart by their ids. */
  lemma ReachesSame(db: Snapshot, groups: LeafQ, a: AccountRow, r: LeafRow, s: LeafRow, g: LeafRow)
    requires ValidSnapshot(db) && r in db.groups && s in db.groups
    requires g == ProjectLeaf(LeafColumns(groups), r) && Reaches(db, groups, a, s, g)
    ensures r == s
  {
    LeafColumnsKeep(groups);
    SameKey(LeafKey, db.groups, r, s);
  }

  lemma TraversedIsEager(db: Snapshot, q: AccountQ, groups: LeafQ, g: LeafRow)
    requires ValidSnapshot(db) && Unwindowed(groups.criteria) && g in Traversed(db, q, groups)
    ensures g in EagerGroups(db, q, groups)
  {
    SelectIsSqlAndUnread(q.criteria, db.accounts);
    TraversedMember(db, q, groups, g);
    EagerMember(db, q, groups, g);
    var a, r :| a in SqlRows(q.criteria, db.accounts) && r in db.groups && Reaches(db, groups, a, r, g);
    assert a in SelectRows(q.criteria, db.accounts);
  }

  lemma FoundGroup(db: Snapshot, q: AccountQ, groups: LeafQ, g: LeafRow)
    requires ValidSnapshot(db) && Unwindowed(groups.criteria)
    requires NothingMissed(db, q, groups) && g in EagerGroups(db, q, groups)
    ensures g in Traversed(db, q, groups)
  {
    SelectIsSqlAndUnread(q.criteria, db.accounts);
    TraversedMember(db, q, groups, g);
    EagerMember(db, q, groups, g);
    var a, r :| a in SelectRows(q.criteria, db.accounts) && r in db.groups && Reaches(db, groups, a, r, g);
    if a !in SqlRows(q.criteria, db.accounts) {
      assert a in Unread(q.criteria, db.accounts);
      assert ReachedFrom(db.accountGroups, SqlRows(q.criteria, db.accounts))(r);
      var b :| b in SqlRows(q.criteria, db.accounts) && Linked(db.accountGroups, b.id, r.id);
      assert Reaches(db, groups, b, r, g);
    }
  }

  lemma MissedGroup(db: Snapshot, q: AccountQ, groups: LeafQ) returns (g: LeafRow)
    requires ValidSnapshot(db) && Unwindowed(groups.criteria) && !NothingMissed(db, q, groups)
    ensures g in EagerGroups(db, q, groups) && g !in Traversed(db, q, groups)
  {
    var read := SqlRows(q.criteria, db.accounts);
    SelectIsSqlAndUnread(q.criteria, db.accounts);
    var a, r :| a in Unread(q.criteria, db.accounts) && r in db.groups && Linked(db.accountGroups, a.id, r.id) &&
                Selects(groups.criteria, r) && !ReachedFrom(db.accountGroups, read)(r);
    g := ProjectLeaf(LeafColumns(groups), r);
    EagerMember(db, q, groups, g);
    TraversedMember(db, q, groups, g);
    assert a in SelectRows(q.criteria, db.accounts) && Reaches(db, groups, a, r, g);
    if b, s :| b in read && s in db.groups && Reaches(db, groups, b, s, g) {
      ReachesSame(db, groups, b, r, s, g);
    }
  }

  ghost predicate IsEager(db: Snapshot, q: AccountQ, groups: LeafQ) {
    (set g | g in Traversed(db, q, groups)) == EagerGroups(db, q, groups)
  }

  /** Traversing an edge finds the groups that loading it finds exactly if no group is missed: always, unless
      the query has a limit of zero, or an offset of zero alone over more rows than the largest limit. */
  lemma TraversalIsEager(db: Snapshot, q: AccountQ, groups: LeafQ)
    requires ValidSnapshot(db) && Unwindowed(groups.criteria)
    ensures IsEager(db, q, groups) <==> NothingMissed(db, q, groups)
  {
    var traversed := set g | g in Traversed(db, q, groups);
    forall g | g in traversed { TraversedIsEager(db, q, groups, g); }
    if NothingMissed(db, q, groups) {
      forall g | g in EagerGroups(db, q, groups) { FoundGroup(db, q, groups, g); }
    } else {
      var g := MissedGroup(db, q, groups);
      assert g !in traversed;
    }
  }

  // ----- whatever is stored -----

  /** How many rows a query can let through before loading reads more of them than traversing. */
  function ReadAlike<R>(c: Criteria<R>): Option<nat> {
    if c.limit == Some(0) then Some(if c.offset.Some? then c.offset.value else 0)
    else if c.limit == None && c.offset == Some(0) then Some(MAX_INT32)
    else None
  }

  /** Rows of a table that the query lets through, one more than it may. */
  ghost predicate TooMany(c: Criteria<AccountRow>, rows: seq<AccountRow>) {
    && ReadAlike(c).Some? && |rows| == 1 + ReadAlike(c).value
    && UniqueBy(AccountKey, rows) && forall r | r in rows :: Selects(c, r)
  }

  /** On every snapshot traversing finds the groups that loading finds, if and only if the limit is not zero and
      the offset is not zero alone, or the query never lets through enough rows for that to show, or no group is
      ever selected. */
  lemma AlwaysEagerExactly(q: AccountQ, groups: LeafQ)
    requires Unwindowed(groups.criteria)
    ensures (forall db | ValidSnapshot(db) :: IsEager(db, q, groups)) <==>
            (!exists rows :: TooMany(q.criteria, rows)) || !exists g :: Selects(groups.criteria, g)
  {
    if rows, g :| TooMany(q.criteria, rows) && Selects(groups.criteria, g) {
      var db := LastRowUnread(q, groups, rows, g);
      TraversalIsEager(db, q, groups);
    } else {
      forall db | ValidSnapshot(db) ensures IsEager(db, q, groups) {
        TraversalIsEager(db, q, groups);
        if !NothingMissed(db, q, groups) { UnreadAreTooMany(q.criteria, db.accounts); }
      }
    }
  }

  lemma UnreadAreTooMany(c: Criteria<AccountRow>, table: seq<AccountRow>)
    requires UniqueBy(AccountKey, table) && Unread(c, table) != []
    ensures exists rows :: TooMany(c, rows)
  {
    var all := Filtered(c, table);
    KeyUniqueFiltered(AccountKey, c, table);
    var rows := all[..1 + ReadAlike(c).value];
    forall r | r in rows ensures Selects(c, r) {
      assert r in all;
      FilteredMember(c, table, r);
    }
    assert TooMany(c, rows);
  }

  /** Of a table of just such rows, only loading reads the last, which is linked to the one group. */
  lemma LastRowUnread(q: AccountQ, groups: LeafQ, rows: seq<AccountRow>, g: LeafRow) returns (db: Snapshot)
    requires TooMany(q.criteria, rows) && Selects(groups.criteria, g)
    ensures ValidSnapshot(db) && !NothingMissed(db, q, groups)
  {
    var a := LastUnread(q.criteria, rows);
    var join := JoinTableRow(a.id, g.id, 0, 0);
    db := Snapshot(rows, [g], [], [join]);
    assert join in db.accountGroups && g in db.groups;
    assert Linked(db.accountGroups, a.id, g.id) && a in Unread(q.criteria, db.accounts);
    assert !ReachedFrom(db.accountGroups, SqlRows(q.criteria, rows))(g);
  }

  lemma LastUnread(c: Criteria<AccountRow>, rows: seq<AccountRow>) returns (a: AccountRow)
    requires TooMany(c, rows)
    ensures a in Unread(c, rows) && forall b | b in SqlRows(c, rows) :: b.id != a.id
  {
    var all := Filtered(c, rows);
    KeepAll(r => Selects(c, r), rows);
    SortLength(c.order, rows);
    KeyUniqueFiltered(AccountKey, c, rows);
    var n := ReadAlike(c).value;
    a := all[n];
    assert |all| == 1 + n && Unread(c, rows) == [a];
    forall b | b in SqlRows(c, rows) ensures b.id != a.id {
      var i :| 0 <= i < |SqlRows(c, rows)| && SqlRows(c, rows)[i] == b;
      assert b == all[i] && AccountKey(all[i]) != AccountKey(all[n]);
    }
  }

  // ----- a limit of zero -----

  /** With a limit of zero that is exactly if there is nothing to find. */
  lemma ZeroLimitFindsNothing(db: Snapshot, q: AccountQ, groups: LeafQ)
    requires ValidSnapshot(db) && Unwindowed(groups.criteria) && q.criteria.limit == Some(0)
    ensures IsEager(db, q, groups) <==>
            !exists a, r | a in SelectRows(q.criteria, db.accounts) && r in db.groups ::
              Linked(db.accountGroups, a.id, r.id) && Selects(groups.criteria, r)
  {
    TraversalIsEager(db, q, groups);
  }

  /** One account in one group, and a query for at most zero accounts: loading finds the group. */
  lemma ZeroLimitMisses() returns (db: Snapshot, q: AccountQ, groups: LeafQ)
    ensures ValidSnapshot(db) && Unwindowed(groups.criteria) && q.criteria.limit == Some(0)
    ensures Traversed(db, q, groups) == [] && EagerGroups(db, q, groups) != {}
  {
    var a, g := AccountRow(1, None, None, map[]), LeafRow(2, map[]);
    db := Snapshot([a], [g], [], [JoinTableRow(1, 2, 0, 0)]);
    groups := LeafQ([], [], Criteria([], [], _ => 0, None, None));
    q := AccountQ([], Criteria([], [], _ => 0, Some(0), None), None, None, None, None, None);
    assert db.accountGroups[0] in db.accountGroups;
    FilteredMember(q.criteria, db.accounts, a);
    EagerMember(db, q, groups, ProjectLeaf(LeafColumns(groups), g));
    assert Reaches(db, groups, a, g, ProjectLeaf(LeafColumns(groups), g));
    var traversed := Traversed(db, q, groups);
    if traversed != [] {
      assert traversed[0] in traversed;
      TraversedMember(db, q, groups, traversed[0]);
    }
  }
}
