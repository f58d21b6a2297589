/** Why edge queries must not carry a limit or an offset: the window then cuts the whole batch, not what one
    node gets. Whatever else an edge query filters, it serves every batch as it serves its nodes one by one
    exactly if it has neither, provided it lets through enough rows to matter. */
module Windows {
  import opened Wrappers
  import opened Relational
  import opened Schema
  import opened Joins
  import opened Queries
  import opened Stages
  import opened NestedLoop

  // ----- a window over rows that all count -----

  /** How many rows it takes for a window to show. */
  function WindowSize<R>(c: Criteria<R>): nat {
    if NonZero(c.offset).Some? then c.offset.value else if NonZero(c.limit).Some? then c.limit.value else 0
  }

  lemma {:induction false} InsertLength<R>(order: R -> int, x: R, rows: seq<R>)
    ensures |Insert(order, x, rows)| == 1 + |rows|
  {
    if rows == [] || order(x) <= order(rows[0]) {
    } else {
      InsertLength(order, x, rows[1..]);
    }
  }

  lemma {:induction false} SortLength<R>(order: R -> int, rows: seq<R>)
    ensures |Sort(order, rows)| == |rows|
  {
    if rows == [] {
    } else {
      SortLength(order, rows[1..]);
      InsertLength(order, rows[0], Sort(order, rows[1..]));
    }
  }

  /** Of one row more than it takes for a window to show, an offset leaves one, and a limit misses one. */
  lemma WindowShows<R, K>(key: R -> K, c: Criteria<R>, rows: seq<R>) returns (r: R)
    requires UniqueBy(key, rows) && (forall r | r in rows :: Selects(c, r))
    requires !Unwindowed(c) && |rows| == 1 + WindowSize(c)
    ensures r in rows && (r in SelectRows(c, rows) <==> NonZero(c.offset).Some?)
    ensures NonZero(c.offset).None? ==> Filtered(c, rows) == SelectRows(c, rows) + [r]
  {
    var all := Filtered(c, rows);
    KeepAll(r => Selects(c, r), rows);
    SortLength(c.order, rows);
    SortUnique(key, c.order, rows);
    var seen := SelectRows(c, rows);
    if NonZero(c.offset).Some? {
      r := seen[0];
      assert r in seen;
      SelectMember(c, rows, r);
    } else {
      var n := |all| - 1;
      r := all[n];
      SortMember(c.order, rows, r);
      assert r in all;
      forall i | 0 <= i < |seen| ensures seen[i] != r {
        assert seen[i] == all[i] && key(all[i]) != key(all[n]);
      }
    }
  }

  /** Of no more rows than it takes for a window to show, an offset leaves none, and a limit leaves all. */
  lemma WindowHides<R>(c: Criteria<R>, table: seq<R>)
    requires !Unwindowed(c) && |Filtered(c, table)| <= WindowSize(c)
    ensures SelectRows(c, table) == if NonZero(c.offset).Some? then [] else Filtered(c, table)
  {
  }

  lemma FilteredMember<R>(c: Criteria<R>, table: seq<R>, r: R)
    ensures r in Filtered(c, table) <==> r in table && Selects(c, r)
  {
    SortMember(c.order, Keep(r => Selects(c, r), table), r);
    KeepMember(r => Selects(c, r), table, r);
  }

  /** Filtering the rows for many keys by one of them is filtering for that one. */
  lemma FilteredTwice<R>(c: Criteria<R>, many: R -> bool, one: R -> bool, table: seq<R>)
    requires forall r | r in table && one(r) :: many(r)
    ensures Keep(one, Filtered(Narrow(c, many), table)) == Filtered(Narrow(c, one), table)
  {
    var open := c.(limit := None, offset := None);
    NarrowTwice(open, many, one, table);
    var a, b := r => Selects(Narrow(open, many), r), r => Selects(Narrow(c, many), r);
    var x, y := r => Selects(Narrow(open, one), r), r => Selects(Narrow(c, one), r);
    assert forall r :: a(r) == b(r) && x(r) == y(r);
    KeepSame(a, b, table);
    KeepSame(x, y, table);
  }

  lemma {:induction false} KeepShorter<R>(p: R -> bool, rows: seq<R>, r: R)
    requires r in rows && !p(r)
    ensures |Keep(p, rows)| < |rows|
  {
    if rows[0] == r {
      KeepAtMost(p, rows[1..]);
    } else {
      assert rows == [rows[0]] + rows[1..];
      KeepShorter(p, rows[1..], r);
    }
  }

  lemma {:induction false} KeepAtMost<R>(p: R -> bool, rows: seq<R>)
    ensures |Keep(p, rows)| <= |rows|
  {
    if rows == [] {
    } else {
      KeepAtMost(p, rows[1..]);
    }
  }

  // ----- rows that are handed out by a key -----

  /** A query lets through enough rows for its window to show on a table of nothing else. */
  ghost predicate Enough<R(!new), K>(key: R -> K, c: Criteria<R>) {
    exists rows :: Shows(key, c, rows)
  }

  ghost predicate Shows<R, K>(key: R -> K, c: Criteria<R>, rows: seq<R>) {
    |rows| == 1 + WindowSize(c) && UniqueBy(key, rows) && forall r | r in rows :: Selects(c, r)
  }

  /** The rows have owners, and not all the same. */
  ghost predicate Mixed<R>(owner: R -> Option<int>, rows: seq<R>) {
    && (forall r | r in rows :: owner(r).Some?)
    && exists r, s | r in rows && s in rows :: owner(r) != owner(s)
  }

  /** Such rows may belong to more than one owner. */
  ghost predicate Crowded<R(!new), K>(key: R -> K, owner: R -> Option<int>, c: Criteria<R>) {
    exists rows :: Shows(key, c, rows) && Mixed(owner, rows)
  }

  function OwnersOf<R>(owner: R -> Option<int>, rows: seq<R>): (ids: seq<int>)
    requires forall r | r in rows :: owner(r).Some?
    ensures forall r | r in rows :: owner(r).value in ids
  {
    var ids := seq(|rows|, i requires 0 <= i < |rows| => assert rows[i] in rows; owner(rows[i]).value);
    assert forall i | 0 <= i < |rows| :: ids[i] == owner(rows[i]).value;
    ids
  }

  /** What selects the rows of one owner, or of many. */
  ghost predicate Owned<R(!new)>(owner: R -> Option<int>, id: int, one: R -> bool) {
    forall r :: one(r) <==> owner(r) == Some(id)
  }

  ghost predicate OwnedByAny<R(!new)>(owner: R -> Option<int>, ids: seq<int>, many: R -> bool) {
    forall r :: many(r) <==> owner(r).Some? && owner(r).value in ids
  }

  /** On a table of just such rows, some owner gets more or less out of the batch than alone. */
  lemma WindowCutsOwner<R(!new), K>(key: R -> K, owner: R -> Option<int>, c: Criteria<R>, rows: seq<R>,
                                    ids: seq<int>, many: R -> bool, ones: int -> R -> bool) returns (id: int)
    requires !Unwindowed(c) && Shows(key, c, rows) && Mixed(owner, rows) && ids == OwnersOf(owner, rows)
    requires OwnedByAny(owner, ids, many) && forall id :: Owned(owner, id, ones(id))
    ensures id in ids
    ensures |Keep(ones(id), SelectRows(Narrow(c, many), rows))| != |SelectRows(Narrow(c, ones(id)), rows)|
  {
    var batch := Narrow(c, many);
    forall r | r in rows ensures Selects(batch, r) { NarrowSelects(c, many, r); }
    var r := WindowShows(key, batch, rows);
    id := owner(r).value;
    assert Owned(owner, id, ones(id));
    OwnerAlone(owner, c, rows, id, ones(id));
    OneMissed(c, rows, many, ones(id), r);
  }

  lemma OneMissed<R>(c: Criteria<R>, rows: seq<R>, many: R -> bool, one: R -> bool, r: R)
    requires one(r) && forall s | s in rows && one(s) :: many(s)
    requires
      var batch := SelectRows(Narrow(c, many), rows);
      if NonZero(c.offset).Some? then r in batch else Filtered(Narrow(c, many), rows) == batch + [r]
    requires SelectRows(Narrow(c, one), rows) ==
             if NonZero(c.offset).Some? then [] else Filtered(Narrow(c, one), rows)
    ensures |Keep(one, SelectRows(Narrow(c, many), rows))| != |SelectRows(Narrow(c, one), rows)|
  {
    var batch := SelectRows(Narrow(c, many), rows);
    if NonZero(c.offset).Some? {
      KeepMember(one, batch, r);
    } else {
      FilteredTwice(c, many, one, rows);
      KeepConcat(one, batch, [r]);
      assert Keep(one, [r]) == [r];
    }
  }

  /** Alone, an owner of such rows keeps them all under a limit, and none under an offset. */
  lemma OwnerAlone<R(!new)>(owner: R -> Option<int>, c: Criteria<R>, rows: seq<R>, id: int, one: R -> bool)
    requires !Unwindowed(c) && |rows| == 1 + WindowSize(c) && Mixed(owner, rows) && Owned(owner, id, one)
    ensures SelectRows(Narrow(c, one), rows) ==
            if NonZero(c.offset).Some? then [] else Filtered(Narrow(c, one), rows)
  {
    var lone := Narrow(c, one);
    var p := s => Selects(lone, s);
    var a, b :| a in rows && b in rows && owner(a) != owner(b);
    var other := if owner(a) != Some(id) then a else b;
    NarrowSelects(c, one, other);
    KeepShorter(p, rows, other);
    SortLength(c.order, Keep(p, rows));
    WindowHides(lone, rows);
  }

  /** If more rows are filtered than it takes for the window to show, and they are never those of two owners,
      then they are those of one. */
  lemma OneOwner<R(!new), K>(key: R -> K, owner: R -> Option<int>, c: Criteria<R>, ids: seq<int>, many: R -> bool,
                             table: seq<R>, r: R, s: R)
    requires UniqueBy(key, table) && !Crowded(key, owner, c) && !Unwindowed(c) && OwnedByAny(owner, ids, many)
    requires
      var all := Filtered(Narrow(c, many), table);
      |all| > WindowSize(c) && r in all && s in all
    ensures owner(r) == owner(s)
  {
    var all := Filtered(Narrow(c, many), table);
    forall x | x in all ensures owner(x).Some? && Selects(c, x) {
      FilteredMember(Narrow(c, many), table, x);
      NarrowSelects(c, many, x);
    }
    KeyUniqueFiltered(key, Narrow(c, many), table);
    var picked := PickWith(key, all, WindowSize(c), r, s);
    assert Shows(key, c, picked);
    assert !Mixed(owner, picked);
  }

  /** Some of these rows, two given ones among them. */
  lemma {:induction false} PickWith<R, K>(key: R -> K, rows: seq<R>, n: nat, r: R, s: R) returns (picked: seq<R>)
    requires UniqueBy(key, rows) && 0 < n < |rows| && r in rows && s in rows
    ensures |picked| == n + 1 && UniqueBy(key, picked) && r in picked && s in picked
    ensures forall x | x in picked :: x in rows
    decreases |rows|
  {
    picked := rows;
    if |rows| > n + 1 {
      assert key(rows[0]) != key(rows[1]) && key(rows[0]) != key(rows[2]) && key(rows[1]) != key(rows[2]);
      var at := if rows[0] != r && rows[0] != s then 0 else if rows[1] != r && rows[1] != s then 1 else 2;
      var rest := rows[..at] + rows[at + 1..];
      DropOne(key, rows, at, r);
      DropOne(key, rows, at, s);
      picked := PickWith(key, rest, n, r, s);
    }
  }

  lemma DropOne<R, K>(key: R -> K, rows: seq<R>, at: nat, r: R)
    requires UniqueBy(key, rows) && at < |rows| && r in rows && r != rows[at]
    ensures UniqueBy(key, rows[..at] + rows[at + 1..]) && r in rows[..at] + rows[at + 1..]
    ensures forall x | x in rows[..at] + rows[at + 1..] :: x in rows
  {
    var rest := rows[..at] + rows[at + 1..];
    forall i | 0 <= i < |rest| ensures rest[i] == rows[if i < at then i else i + 1] {}
    var j :| 0 <= j < |rows| && rows[j] == r;
    assert rest[if j < at then j else j - 1] == r;
  }

  lemma KeyUniqueFiltered<R, K>(key: R -> K, c: Criteria<R>, table: seq<R>)
    requires UniqueBy(key, table)
    ensures UniqueBy(key, Filtered(c, table))
  {
    KeepUnique(key, r => Selects(c, r), table);
    SortUnique(key, c.order, Keep(r => Selects(c, r), table));
  }

  /** If the query never lets through such rows, the window makes no difference between a batch and one owner. */
  lemma WindowSparesOwner<R(!new), K>(key: R -> K, owner: R -> Option<int>, c: Criteria<R>, table: seq<R>,
                                      ids: seq<int>, many: R -> bool, id: int, one: R -> bool)
    requires !Unwindowed(c) && !Crowded(key, owner, c) && UniqueBy(key, table) && id in ids
    requires OwnedByAny(owner, ids, many) && Owned(owner, id, one)
    ensures Keep(one, SelectRows(Narrow(c, many), table)) == SelectRows(Narrow(c, one), table)
  {
    var batch := Narrow(c, many);
    var all := Filtered(batch, table);
    FilteredTwice(c, many, one, table);
    KeepAtMost(one, all);
    if |all| <= WindowSize(c) {
      WindowHides(batch, table);
      WindowHides(Narrow(c, one), table);
    } else {
      forall r | r in all ensures owner(r) == owner(all[0]) {
        OneOwner(key, owner, c, ids, many, table, r, all[0]);
      }
      forall r | r in SelectRows(batch, table) ensures r in all {
        SelectMember(batch, table, r);
        FilteredMember(batch, table, r);
      }
      if one(all[0]) {
        KeepAll(one, all);
        KeepAll(one, SelectRows(batch, table));
      } else {
        KeepNone(one, all);
        KeepNone(one, SelectRows(batch, table));
      }
    }
  }

  // ----- children -----

  /** The ids of the children that the batch hands to a parent. */
  function HandedOut(db: Snapshot, sub: AccountQ, ids: seq<int>, id: int): seq<int> {
    Map(TreeID, ChildrenOf(id, Accounts(db, Where(KeyedChild(sub), ParentIn(ids)))))
  }

  /** The ids of the children that the edge query selects for that parent alone. */
  function SelectedFor(db: Snapshot, sub: AccountQ, id: int): seq<int> {
    Map(AccountKey, SelectRows(Narrow(sub.criteria, ParentIs(id)), db.accounts))
  }

  ghost predicate HandsOutExactly(sub: AccountQ) {
    forall db, ids, id | ValidSnapshot(db) && id in ids :: HandedOut(db, sub, ids, id) == SelectedFor(db, sub, id)
  }

  lemma HandedOutIsKept(db: Snapshot, sub: AccountQ, ids: seq<int>, id: int)
    ensures HandedOut(db, sub, ids, id) ==
            Map(AccountKey, Keep(ParentIs(id), SelectRows(Narrow(sub.criteria, ParentIn(ids)), db.accounts)))
  {
    var p := Where(KeyedChild(sub), ParentIn(ids));
    var batch, trees := SelectRows(p.criteria, db.accounts), Accounts(db, p);
    AccountsRows(db, p);
    AccountColumnsKeep(p);
    var at := ChildRows(db, sub, ids, id);
    forall i | 0 <= i < |at| ensures HandedOut(db, sub, ids, id)[i] == AccountKey(Keep(ParentIs(id), batch)[i]) {
      assert TreeID(trees[at[i]]) == batch[at[i]].id;
    }
  }

  function Parent(r: AccountRow): Option<int> { r.parentAccountID }

  /** On a table of just these rows, in one batch, some parent is handed the wrong number of children. */
  lemma WindowCutsBatch(sub: AccountQ, rows: seq<AccountRow>) returns (db: Snapshot, ids: seq<int>, id: int)
    requires !Unwindowed(sub.criteria) && Shows(AccountKey, sub.criteria, rows) && Mixed(Parent, rows)
    ensures ValidSnapshot(db) && id in ids
    ensures |HandedOut(db, sub, ids, id)| != |SelectedFor(db, sub, id)|
  {
    db, ids := Snapshot(rows, [], [], []), OwnersOf(Parent, rows);
    id := WindowCutsOwner(AccountKey, Parent, sub.criteria, rows, ids, ParentIn(ids), ParentIs);
    HandedOutIsKept(db, sub, ids, id);
  }

  /** A children query serves every batch exactly if and only if it has no window, or lets through so little
      that its window never shows on children of two parents at once. */
  lemma ExactIffUnwindowed(sub: AccountQ)
    ensures HandsOutExactly(sub) <==> Unwindowed(sub.criteria) || !Crowded(AccountKey, Parent, sub.criteria)
  {
    var c := sub.criteria;
    if Unwindowed(c) || !Crowded(AccountKey, Parent, c) {
      forall db, ids, id | ValidSnapshot(db) && id in ids
        ensures HandedOut(db, sub, ids, id) == SelectedFor(db, sub, id)
      {
        HandedOutIsKept(db, sub, ids, id);
        if Unwindowed(c) {
          NarrowTwice(c, ParentIn(ids), ParentIs(id), db.accounts);
        } else {
          WindowSparesOwner(AccountKey, Parent, c, db.accounts, ids, ParentIn(ids), id, ParentIs(id));
        }
      }
    } else {
      var rows :| Shows(AccountKey, c, rows) && Mixed(Parent, rows);
      var db, ids, id := WindowCutsBatch(sub, rows);
    }
  }

  /** The interceptor of the soft-delete mixin. */
  function SoftDelete(): Interceptor<AccountRow> {
    Traverser((r: AccountRow) => DeletedAt !in r.attrs || r.attrs[DeletedAt] == Null)
  }

  /** Accounts of which each is the only child of another. */
  function OnlyChildren(n: nat): (rows: seq<AccountRow>)
    ensures |rows| == n && UniqueBy(AccountKey, rows) && forall r | r in rows :: r.attrs == map[]
    ensures n > 1 ==> Mixed(Parent, rows)
  {
    var rows := seq(n, i => AccountRow(i, None, Some(i), map[]));
    assert n > 1 ==> rows[0] in rows && rows[1] in rows;
    rows
  }

  lemma NotDeleted(c: Criteria<AccountRow>, r: AccountRow)
    requires c.preds == [] && c.inters == [SoftDelete()] && r.attrs == map[]
    ensures Selects(c, r)
  {
    assert c.inters[1..] == [];
  }

  /** So the children query that the package builds, which hides deleted accounts, must not have a window. */
  lemma SoftDeleteIsNoExcuse(sub: AccountQ)
    requires sub.criteria.preds == [] && sub.criteria.inters == [SoftDelete()]
    ensures HandsOutExactly(sub) <==> Unwindowed(sub.criteria)
  {
    var c := sub.criteria;
    ExactIffUnwindowed(sub);
    if !Unwindowed(c) {
      var rows := OnlyChildren(1 + WindowSize(c));
      forall r | r in rows ensures Selects(c, r) { NotDeleted(c, r); }
      assert Shows(AccountKey, c, rows) && Mixed(Parent, rows);
    }
  }

  // ----- join rows -----

  function JoinOwner(r: JoinTableRow): Option<int> { Some(r.accountID) }

  /** The join rows that the batch hands to an account, as scanned. */
  function HandedJoins(db: Snapshot, sub: JoinQ, ids: seq<int>, id: int): seq<JoinTableRow> {
    Map((t: JoinTree) => t.row, JoinsOf(id, JoinNodes(db, WhereJoin(KeyedJoin(sub), AccountIn(ids)))))
  }

  /** The join rows that the edge query selects for that account alone, as scanned. */
  function LoneJoins(db: Snapshot, sub: JoinQ, id: int): seq<JoinTableRow> {
    Map((r: JoinTableRow) => ProjectJoin(JoinColumnsOf(KeyedJoin(sub)), r),
        SelectRows(Narrow(sub.criteria, AccountOf(id)), db.accountGroups))
  }

  ghost predicate HandsOutJoinsExactly(sub: JoinQ) {
    forall db, ids, id | ValidSnapshot(db) && id in ids ::
      HandedJoins(db, sub, ids, id) == LoneJoins(db, sub, id)
  }

  lemma HandedJoinsAreKept(db: Snapshot, sub: JoinQ, ids: seq<int>, id: int)
    ensures HandedJoins(db, sub, ids, id) ==
            Map((r: JoinTableRow) => ProjectJoin(JoinColumnsOf(KeyedJoin(sub)), r),
                Keep(AccountOf(id), SelectRows(Narrow(sub.criteria, AccountIn(ids)), db.accountGroups)))
  {
    var p := WhereJoin(KeyedJoin(sub), AccountIn(ids));
    JoinNodesRows(db, p);
    var at := JoinRowsHanded(db, sub, ids, id);
  }

  lemma WindowCutsJoinBatch(sub: JoinQ, rows: seq<JoinTableRow>) returns (db: Snapshot, ids: seq<int>, id: int)
    requires !Unwindowed(sub.criteria) && Shows(JoinPair, sub.criteria, rows) && Mixed(JoinOwner, rows)
    ensures ValidSnapshot(db) && id in ids
    ensures |HandedJoins(db, sub, ids, id)| != |LoneJoins(db, sub, id)|
  {
    db, ids := Snapshot([], [], [], rows), OwnersOf(JoinOwner, rows);
    id := WindowCutsOwner(JoinPair, JoinOwner, sub.criteria, rows, ids, AccountIn(ids), AccountOf);
    HandedJoinsAreKept(db, sub, ids, id);
  }

  /** The same equivalence for the join rows of an account. */
  lemma JoinsExactIffUnwindowed(sub: JoinQ)
    ensures HandsOutJoinsExactly(sub) <==> Unwindowed(sub.criteria) || !Crowded(JoinPair, JoinOwner, sub.criteria)
  {
    var c := sub.criteria;
    if Unwindowed(c) || !Crowded(JoinPair, JoinOwner, c) {
      forall db, ids, id | ValidSnapshot(db) && id in ids
        ensures HandedJoins(db, sub, ids, id) == LoneJoins(db, sub, id)
      {
        HandedJoinsAreKept(db, sub, ids, id);
        if Unwindowed(c) {
          NarrowTwice(c, AccountIn(ids), AccountOf(id), db.accountGroups);
        } else {
          WindowSparesOwner(JoinPair, JoinOwner, c, db.accountGroups, ids, AccountIn(ids), id, AccountOf(id));
        }
      }
    } else {
      var rows :| Shows(JoinPair, c, rows) && Mixed(JoinOwner, rows);
      var db, ids, id := WindowCutsJoinBatch(sub, rows);
    }
  }
}
