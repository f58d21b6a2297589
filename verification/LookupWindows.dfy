/** What a limit or an offset does to the other shapes of edges: lookups by id, and groups, where the window
    counts join rows. */
module LookupWindows {
  import opened Wrappers
  import opened Relational
  import opened Schema
  import opened Joins
  import opened Queries
  import opened Stages
  import opened Grouping
  import opened NestedLoop
  import opened Windows

  // ----- lookups by id -----

  /** What a batch of lookups finds under one of its keys. */
  function FoundRow(db: Snapshot, sub: AccountQ, ids: seq<int>, k: int): Option<AccountRow> {
    var found := FindLast(Accounts(db, Where(sub, IDIn(ids))), TreeID, k);
    if found.None? then None else Some(found.value.row)
  }

  /** What looking that key up alone finds. */
  function LoneRow(db: Snapshot, sub: AccountQ, k: int): Option<AccountRow> {
    var rows := SelectRows(Narrow(sub.criteria, IDIs(k)), db.accounts);
    if rows == [] then None else Some(ProjectAccount(ColumnsOf(sub), rows[0]))
  }

  ghost predicate LooksUpExactly(sub: AccountQ) {
    forall db, ids, k | ValidSnapshot(db) && k in ids :: FoundRow(db, sub, ids, k) == LoneRow(db, sub, k)
  }

  ghost predicate LooksUpLeavesExactly(sub: LeafQ) {
    forall table, ids, k | UniqueBy(LeafKey, table) && k in ids ::
      FindLast(Leaves(table, WhereLeaf(sub, LeafIDIn(ids))), LeafKey, k) == LookupLeaf(table, sub, k)
  }

  /** A window on a query by ids, seen from the rows: one of these ids is found in the batch and not alone, or
      the other way round. */
  lemma WindowCutsLookups<R>(key: R -> int, c: Criteria<R>, rows: seq<R>, one: int -> R -> bool,
                             many: seq<int> -> R -> bool)
    returns (ids: seq<int>, k: int)
    requires !Unwindowed(c) && Shows(key, c, rows)
    requires forall k, r :: one(k)(r) <==> key(r) == k
    requires forall ids, r :: many(ids)(r) <==> key(r) in ids
    ensures k in ids
    ensures Keep(one(k), SelectRows(Narrow(c, many(ids)), rows)) == [] <==> SelectRows(Narrow(c, one(k)), rows) != []
  {
    ids := Map(key, rows);
    var batch := Narrow(c, many(ids));
    forall r | r in rows ensures Selects(batch, r) && key(r) in ids {
      var i :| 0 <= i < |rows| && rows[i] == r;
      assert ids[i] == key(r);
      NarrowSelects(c, many(ids), r);
    }
    var r := WindowShows(key, batch, rows);
    k := key(r);
    KeyInBatch(key, one(k), batch, rows, r);
    KeyAlone(key, one(k), c, rows, r);
  }

  /** Alone, the row of a key is left by a limit and lost to an offset. */
  lemma KeyAlone<R>(key: R -> int, p: R -> bool, c: Criteria<R>, rows: seq<R>, r: R)
    requires !Unwindowed(c) && Shows(key, c, rows) && r in rows && forall s :: p(s) <==> key(s) == key(r)
    ensures SelectRows(Narrow(c, p), rows) == [] <==> NonZero(c.offset).Some?
  {
    var lone := Narrow(c, p);
    var q := s => Selects(lone, s);
    forall s | s in rows ensures q(s) == (key(s) == key(r)) { NarrowSelects(c, p, s); }
    KeepSame(q, s => key(s) == key(r), rows);
    KeepOne(key, key(r), rows);
    SortLength(c.order, Keep(q, rows));
    WindowHides(lone, rows);
    FilteredMember(lone, rows, r);
  }

  /** If a query never lets through enough rows, its window makes no difference between a batch and one key. */
  lemma WindowSparesLookups<R(!new)>(key: R -> int, c: Criteria<R>, table: seq<R>, one: R -> bool, many: R -> bool)
    requires !Unwindowed(c) && !Enough(key, c) && UniqueBy(key, table) && forall r | r in table && one(r) :: many(r)
    ensures Keep(one, SelectRows(Narrow(c, many), table)) == SelectRows(Narrow(c, one), table)
  {
    var all, n := Filtered(Narrow(c, many), table), WindowSize(c);
    KeyUniqueFiltered(key, Narrow(c, many), table);
    forall r | r in all ensures Selects(c, r) {
      FilteredMember(Narrow(c, many), table, r);
      NarrowSelects(c, many, r);
    }
    assert |all| > n ==> Shows(key, c, all[..n + 1]);
    FilteredTwice(c, many, one, table);
    KeepAtMost(one, all);
    WindowHides(Narrow(c, many), table);
    WindowHides(Narrow(c, one), table);
  }

  lemma KeyInBatch<R>(key: R -> int, p: R -> bool, c: Criteria<R>, rows: seq<R>, r: R)
    requires r in rows && UniqueBy(key, rows) && forall s | s in rows :: p(s) <==> key(s) == key(r)
    ensures Keep(p, SelectRows(c, rows)) == [] <==> r !in SelectRows(c, rows)
  {
    var batch := SelectRows(c, rows);
    var kept := Keep(p, batch);
    KeepMember(p, batch, r);
    if kept != [] {
      assert kept[0] in kept;
      KeepMember(p, batch, kept[0]);
      SelectMember(c, rows, kept[0]);
      SameKey(key, rows, kept[0], r);
    }
  }

  lemma FoundIsKept(db: Snapshot, sub: AccountQ, ids: seq<int>, k: int)
    requires ValidSnapshot(db)
    ensures
      var kept := Keep(IDIs(k), SelectRows(Narrow(sub.criteria, IDIn(ids)), db.accounts));
      FoundRow(db, sub, ids, k) == if kept == [] then None else Some(ProjectAccount(ColumnsOf(sub), kept[0]))
  {
    var p := Where(sub, IDIn(ids));
    var rows, trees := SelectRows(p.criteria, db.accounts), Accounts(db, p);
    SelectUnique(AccountKey, p.criteria, db.accounts);
    AccountColumnsKeep(p);
    AccountsRows(db, p);
    var at := FoundIsSelected(rows, trees, AccountKey, TreeID, k, IDIs(k));
  }

  /** A query that loads parents finds for every key of every batch what it finds for that key alone if and only
      if it has no window, or never lets through enough accounts for its window to show. */
  lemma ParentsExactIffUnwindowed(sub: AccountQ)
    ensures LooksUpExactly(sub) <==> Unwindowed(sub.criteria) || !Enough(AccountKey, sub.criteria)
  {
    var c := sub.criteria;
    if Unwindowed(c) || !Enough(AccountKey, c) {
      forall db, ids, k | ValidSnapshot(db) && k in ids ensures FoundRow(db, sub, ids, k) == LoneRow(db, sub, k) {
        FoundIsKept(db, sub, ids, k);
        if Unwindowed(c) {
          NarrowTwice(c, IDIn(ids), IDIs(k), db.accounts);
        } else {
          WindowSparesLookups(AccountKey, c, db.accounts, IDIs(k), IDIn(ids));
        }
      }
    } else {
      var rows :| Shows(AccountKey, c, rows);
      var ids, k := WindowCutsLookups(AccountKey, c, rows, IDIs, IDIn);
      var db := Snapshot(rows, [], [], []);
      FoundIsKept(db, sub, ids, k);
      assert FoundRow(db, sub, ids, k) != LoneRow(db, sub, k);
    }
  }

  lemma FoundLeafIsKept(table: seq<LeafRow>, sub: LeafQ, ids: seq<int>, k: int)
    requires UniqueBy(LeafKey, table)
    ensures
      var kept := Keep(LeafIDIs(k), SelectRows(Narrow(sub.criteria, LeafIDIn(ids)), table));
      FindLast(Leaves(table, WhereLeaf(sub, LeafIDIn(ids))), LeafKey, k) ==
      if kept == [] then None else Some(ProjectLeaf(LeafColumns(sub), kept[0]))
  {
    var p := WhereLeaf(sub, LeafIDIn(ids));
    var rows := SelectRows(p.criteria, table);
    SelectUnique(LeafKey, p.criteria, table);
    LeafColumnsKeep(p);
    var at := FoundIsSelected(rows, Leaves(table, p), LeafKey, LeafKey, k, LeafIDIs(k));
  }

  /** The same for a query that loads proxies, or the groups of join rows. */
  lemma LeavesExactIffUnwindowed(sub: LeafQ)
    ensures LooksUpLeavesExactly(sub) <==> Unwindowed(sub.criteria) || !Enough(LeafKey, sub.criteria)
  {
    var c := sub.criteria;
    if Unwindowed(c) || !Enough(LeafKey, c) {
      forall table, ids, k | UniqueBy(LeafKey, table) && k in ids
        ensures FindLast(Leaves(table, WhereLeaf(sub, LeafIDIn(ids))), LeafKey, k) == LookupLeaf(table, sub, k)
      {
        FoundLeafIsKept(table, sub, ids, k);
        if Unwindowed(c) {
          NarrowTwice(c, LeafIDIn(ids), LeafIDIs(k), table);
        } else {
          WindowSparesLookups(LeafKey, c, table, LeafIDIs(k), LeafIDIn(ids));
        }
      }
    } else {
      var rows :| Shows(LeafKey, c, rows);
      var ids, k := WindowCutsLookups(LeafKey, c, rows, LeafIDIs, LeafIDIn);
      FoundLeafIsKept(rows, sub, ids, k);
      assert FindLast(Leaves(rows, WhereLeaf(sub, LeafIDIn(ids))), LeafKey, k) != LookupLeaf(rows, sub, k);
    }
  }

  // ----- groups -----

  function GroupsInBatch(db: Snapshot, sub: LeafQ, ids: seq<int>, id: int): (groups: set<LeafRow>)
    ensures groups == {} <==> GroupsFor(GroupStream(db, sub, ids), id) == []
  {
    var list := GroupsFor(GroupStream(db, sub, ids), id);
    var all := set g | g in list;
    assert list != [] ==> list[0] in all;
    all
  }

  /** The groups that a batch gives to an account are those that the query selects for it alone. */
  ghost predicate GroupsExactly(sub: LeafQ) {
    forall db, ids, id | ValidSnapshot(db) && id in ids ::
      GroupsInBatch(db, sub, ids, id) == GroupsAlone(db, sub, id)
  }

  /** Accounts 0 to n - 1, all linked to one group. */
  function LinkedAll(g: LeafRow, n: nat): seq<JoinTableRow> {
    seq(n, i requires 0 <= i < n => JoinTableRow(i, g.id, 0, 0))
  }

  function Joinings(g: LeafRow, n: nat): seq<JoinRow> {
    seq(n, i requires 0 <= i < n => JoinRow(i, g))
  }

  function AccountOfJoin(j: JoinRow): int { j.accountID }

  function SharedGroup(g: LeafRow, n: nat): (db: Snapshot)
    ensures ValidSnapshot(db)
  {
    Snapshot([], [g], [], LinkedAll(g, n))
  }

  lemma {:induction false} JoinLinkedAll(g: LeafRow, n: nat)
    ensures JoinTable(LinkedAll(g, n), [g]) == Joinings(g, n)
  {
    if n == 0 {
    } else {
      var joins := LinkedAll(g, n);
      JoinLinkedAll(g, n - 1);
      assert joins[..n - 1] == LinkedAll(g, n - 1);
      assert JoinWith(joins[n - 1], [g]) == JoinWith(joins[n - 1], [g][..0]) + [JoinRow(n - 1, g)];
      assert Joinings(g, n) == Joinings(g, n - 1) + [JoinRow(n - 1, g)];
    }
  }

  /** Whether an account gets the group in a batch. */
  lemma StreamHas(db: Snapshot, sub: LeafQ, ids: seq<int>, g: LeafRow, r: JoinRow)
    requires
      var rows := JoinTable(db.accountGroups, db.groups);
      r in rows && UniqueBy(AccountOfJoin, rows) && r.group == g
    ensures GroupsFor(GroupStream(db, sub, ids), r.accountID) != [] <==>
            r in SelectRows(Lift(sub.criteria, ids), JoinTable(db.accountGroups, db.groups))
  {
    var c, rows := Lift(sub.criteria, ids), JoinTable(db.accountGroups, db.groups);
    var picked, stream := SelectRows(c, rows), GroupStream(db, sub, ids);
    var at := GroupsForExactly(stream, r.accountID);
    var groups := GroupsFor(stream, r.accountID);
    if groups != [] {
      assert Mentions(groups, groups[0].id);
      var i :| 0 <= i < |stream| && stream[i].accountID == r.accountID;
      assert picked[i] in picked;
      SelectMember(c, rows, picked[i]);
      SameKey(AccountOfJoin, rows, picked[i], r);
    }
    if r in picked {
      var i :| 0 <= i < |picked| && picked[i] == r;
      assert Joined(stream, r.accountID, stream[i].group.id);
      assert Mentions(groups, stream[i].group.id);
    }
  }

  /** Whether it does alone. */
  lemma AloneHas(db: Snapshot, sub: LeafQ, g: LeafRow, id: int)
    requires db.groups == [g] && Selects(sub.criteria, g) && Linked(db.accountGroups, id, g.id)
    requires !Unwindowed(sub.criteria)
    ensures GroupsAlone(db, sub, id) != {} <==> NonZero(sub.criteria.offset).None?
  {
    var lone := Narrow(sub.criteria, LinkedTo(db.accountGroups, id));
    NarrowSelects(sub.criteria, LinkedTo(db.accountGroups, id), g);
    KeepAll(r => Selects(lone, r), db.groups);
    assert Sort(lone.order, [g]) == [g];
    WindowHides(lone, db.groups);
    if NonZero(sub.criteria.offset).None? { assert ProjectLeaf(LeafColumns(sub), g) in GroupsAlone(db, sub, id); }
  }

  lemma LinkedAllSelected(sub: LeafQ, g: LeafRow, n: nat, ids: seq<int>, r: JoinRow)
    requires Selects(sub.criteria, g) && ids == Map(AccountOfJoin, Joinings(g, n)) && r in Joinings(g, n)
    ensures Selects(Lift(sub.criteria, ids), r) && r.accountID in ids && r.group == g
    ensures Linked(LinkedAll(g, n), r.accountID, g.id)
  {
    var rows := Joinings(g, n);
    var i :| 0 <= i < |rows| && rows[i] == r;
    assert ids[i] == AccountOfJoin(rows[i]);
    assert LinkedAll(g, n)[i] in LinkedAll(g, n);
    LiftSelects(sub.criteria, ids, r);
  }

  /** The window of a group query counts join rows: if enough accounts share one group, some account of the
      batch gets it and alone does not, or the other way round. */
  lemma WindowCutsJoins(sub: LeafQ, g: LeafRow) returns (db: Snapshot, ids: seq<int>, id: int)
    requires Selects(sub.criteria, g) && !Unwindowed(sub.criteria)
    ensures ValidSnapshot(db) && id in ids
    ensures GroupsInBatch(db, sub, ids, id) != GroupsAlone(db, sub, id)
  {
    var n := 1 + WindowSize(sub.criteria);
    var rows := Joinings(g, n);
    db, ids := SharedGroup(g, n), Map(AccountOfJoin, rows);
    JoinLinkedAll(g, n);
    forall r | r in rows { LinkedAllSelected(sub, g, n, ids, r); }
    var r := WindowShows(AccountOfJoin, Lift(sub.criteria, ids), rows);
    id := r.accountID;
    StreamHas(db, sub, ids, g, r);
    AloneHas(db, sub, g, id);
  }

  lemma NoGroupSelected(db: Snapshot, sub: LeafQ, ids: seq<int>, id: int)
    requires forall g :: !Selects(sub.criteria, g)
    ensures GroupsInBatch(db, sub, ids, id) == {} == GroupsAlone(db, sub, id)
  {
    var lone, c := Narrow(sub.criteria, LinkedTo(db.accountGroups, id)), Lift(sub.criteria, ids);
    forall r ensures r !in SelectRows(lone, db.groups) {
      if r in SelectRows(lone, db.groups) {
        SelectMember(lone, db.groups, r);
        NarrowSelects(sub.criteria, LinkedTo(db.accountGroups, id), r);
      }
    }
    var rows := SelectRows(c, JoinTable(db.accountGroups, db.groups));
    if rows != [] {
      SelectMember(c, JoinTable(db.accountGroups, db.groups), rows[0]);
      LiftSelects(sub.criteria, ids, rows[0]);
    }
  }

  /** A group query gives every account of every batch exactly the groups that it selects for the account alone
      if and only if it has no window, or selects no group at all. */
  lemma GroupsExactIffUnwindowed(sub: LeafQ)
    ensures GroupsExactly(sub) <==> Unwindowed(sub.criteria) || forall g :: !Selects(sub.criteria, g)
  {
    if Unwindowed(sub.criteria) || forall g :: !Selects(sub.criteria, g) {
      forall db, ids, id | ValidSnapshot(db) && id in ids
        ensures GroupsInBatch(db, sub, ids, id) == GroupsAlone(db, sub, id)
      {
        if Unwindowed(sub.criteria) {
          GroupBatchIsAlone(db, sub, ids, id);
        } else {
          NoGroupSelected(db, sub, ids, id);
        }
      }
    } else {
      var g :| Selects(sub.criteria, g);
      var db, ids, id := WindowCutsJoins(sub, g);
    }
  }
}
