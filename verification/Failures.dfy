/** When running a query fails. The batched run reports the first error it meets; it meets one exactly
    when running the edge queries row by row would fail somewhere. */
module Failures {
  import opened Wrappers
  import opened Relational
  import opened Schema
  import opened Joins
  import opened Queries
  import opened Stages
  import opened NestedLoop

  /** Whether looking up some edge of a single row fails. */
  ghost predicate RowFails(db: Snapshot, q: AccountQ, row: AccountRow)
    decreases Height(q), 1
  {
    || GroupsError(q).Some? || ProxyFails(q, row) || ParentFails(db, q, row)
    || ChildrenFail(db, q, row) || JoinsFail(db, q, row)
  }

  ghost predicate ProxyFails(q: AccountQ, row: AccountRow) {
    q.withProxy.Some? && row.proxyID.Some? && PrepareLeaf(q.withProxy.value).Some?
  }

  ghost predicate ParentFails(db: Snapshot, q: AccountQ, row: AccountRow)
    decreases Height(q), 0
  {
    q.withParent.Some? && row.parentAccountID.Some? &&
    Fails(db, Where(q.withParent.value, IDIs(row.parentAccountID.value)))
  }

  ghost predicate ChildrenFail(db: Snapshot, q: AccountQ, row: AccountRow)
    decreases Height(q), 0
  {
    q.withChildren.Some? && Fails(db, Where(KeyedChild(q.withChildren.value), ParentIs(row.id)))
  }

  ghost predicate JoinsFail(db: Snapshot, q: AccountQ, row: AccountRow)
    decreases Height(q), 0
  {
    q.withAccountGroups.Some? && JoinQueryFails(db, WhereJoin(KeyedJoin(q.withAccountGroups.value), AccountOf(row.id)))
  }

  /** Whether running a query row by row fails somewhere. */
  ghost predicate Fails(db: Snapshot, q: AccountQ)
    decreases Height(q), 2
  {
    || Prepare(q.criteria.inters, q.fields, ACCOUNT_COLUMNS).Some?
    || exists row | row in SelectRows(q.criteria, db.accounts) :: RowFails(db, q, row)
  }

  ghost predicate JoinRowFails(db: Snapshot, q: JoinQ, row: JoinTableRow)
    decreases JoinHeight(q), 1
  {
    JoinGroupError(q).Some? || AccountFails(db, q, row)
  }

  ghost predicate AccountFails(db: Snapshot, q: JoinQ, row: JoinTableRow)
    decreases JoinHeight(q), 0
  {
    q.withAccount.Some? && Fails(db, Where(q.withAccount.value, IDIs(row.accountID)))
  }

  ghost predicate JoinQueryFails(db: Snapshot, q: JoinQ)
    decreases JoinHeight(q), 2
  {
    || Prepare(q.criteria.inters, q.fields, JOIN_COLUMNS).Some?
    || exists row | row in SelectRows(q.criteria, db.accountGroups) :: JoinRowFails(db, q, row)
  }

  /** A narrowed query fails where the query itself would, on the rows that are left. */
  lemma NarrowedFails(db: Snapshot, q: AccountQ, p: AccountRow -> bool)
    requires Unwindowed(q.criteria)
    ensures Fails(db, Where(q, p)) <==>
      || Prepare(q.criteria.inters, q.fields, ACCOUNT_COLUMNS).Some?
      || exists row | row in SelectRows(q.criteria, db.accounts) :: p(row) && RowFails(db, q, row)
  {
    var all := SelectRows(q.criteria, db.accounts);
    SelectNarrow(q.criteria, p, db.accounts);
    forall row
      ensures row in SelectRows(Where(q, p).criteria, db.accounts) <==> row in all && p(row)
    {
      KeepMember(p, all, row);
    }
    forall row ensures RowFails(db, Where(q, p), row) == RowFails(db, q, row) {}
  }

  lemma NarrowedJoinsFail(db: Snapshot, q: JoinQ, p: JoinTableRow -> bool)
    requires Unwindowed(q.criteria)
    ensures JoinQueryFails(db, WhereJoin(q, p)) <==>
      || Prepare(q.criteria.inters, q.fields, JOIN_COLUMNS).Some?
      || exists row | row in SelectRows(q.criteria, db.accountGroups) :: p(row) && JoinRowFails(db, q, row)
  {
    var all := SelectRows(q.criteria, db.accountGroups);
    SelectNarrow(q.criteria, p, db.accountGroups);
    forall row
      ensures row in SelectRows(WhereJoin(q, p).criteria, db.accountGroups) <==> row in all && p(row)
    {
      KeepMember(p, all, row);
    }
    forall row ensures JoinRowFails(db, WhereJoin(q, p), row) == JoinRowFails(db, q, row) {}
  }

  lemma IDsFail(db: Snapshot, q: AccountQ, ids: seq<int>)
    requires Unwindowed(q.criteria) && ids != []
    ensures Fails(db, Where(q, IDIn(ids))) <==> exists k | k in ids :: Fails(db, Where(q, IDIs(k)))
  {
    var all := SelectRows(q.criteria, db.accounts);
    NarrowedFails(db, q, IDIn(ids));
    forall k | k in ids && Fails(db, Where(q, IDIs(k)))
      ensures Fails(db, Where(q, IDIn(ids)))
    {
      NarrowedFails(db, q, IDIs(k));
    }
    if Prepare(q.criteria.inters, q.fields, ACCOUNT_COLUMNS).Some? {
      NarrowedFails(db, q, IDIs(ids[0]));
      assert ids[0] in ids && Fails(db, Where(q, IDIs(ids[0])));
    } else if Fails(db, Where(q, IDIn(ids))) {
      var row :| row in all && row.id in ids && RowFails(db, q, row);
      NarrowedFails(db, q, IDIs(row.id));
      assert Fails(db, Where(q, IDIs(row.id)));
    }
  }

  lemma ParentsFail(db: Snapshot, q: AccountQ, ids: seq<int>)
    requires Unwindowed(q.criteria) && ids != []
    ensures Fails(db, Where(q, ParentIn(ids))) <==> exists k | k in ids :: Fails(db, Where(q, ParentIs(k)))
  {
    var all := SelectRows(q.criteria, db.accounts);
    NarrowedFails(db, q, ParentIn(ids));
    forall k | k in ids && Fails(db, Where(q, ParentIs(k)))
      ensures Fails(db, Where(q, ParentIn(ids)))
    {
      NarrowedFails(db, q, ParentIs(k));
    }
    if Prepare(q.criteria.inters, q.fields, ACCOUNT_COLUMNS).Some? {
      NarrowedFails(db, q, ParentIs(ids[0]));
      assert ids[0] in ids && Fails(db, Where(q, ParentIs(ids[0])));
    } else if Fails(db, Where(q, ParentIn(ids))) {
      var row :| row in all && ParentIn(ids)(row) && RowFails(db, q, row);
      NarrowedFails(db, q, ParentIs(row.parentAccountID.value));
      assert Fails(db, Where(q, ParentIs(row.parentAccountID.value)));
    }
  }

  lemma JoinedFail(db: Snapshot, q: JoinQ, ids: seq<int>)
    requires Unwindowed(q.criteria) && ids != []
    ensures JoinQueryFails(db, WhereJoin(q, AccountIn(ids))) <==>
            exists k | k in ids :: JoinQueryFails(db, WhereJoin(q, AccountOf(k)))
  {
    var all := SelectRows(q.criteria, db.accountGroups);
    NarrowedJoinsFail(db, q, AccountIn(ids));
    forall k | k in ids && JoinQueryFails(db, WhereJoin(q, AccountOf(k)))
      ensures JoinQueryFails(db, WhereJoin(q, AccountIn(ids)))
    {
      NarrowedJoinsFail(db, q, AccountOf(k));
    }
    if Prepare(q.criteria.inters, q.fields, JOIN_COLUMNS).Some? {
      NarrowedJoinsFail(db, q, AccountOf(ids[0]));
      assert ids[0] in ids && JoinQueryFails(db, WhereJoin(q, AccountOf(ids[0])));
    } else if JoinQueryFails(db, WhereJoin(q, AccountIn(ids))) {
      var row :| row in all && row.accountID in ids && JoinRowFails(db, q, row);
      NarrowedJoinsFail(db, q, AccountOf(row.accountID));
      assert JoinQueryFails(db, WhereJoin(q, AccountOf(row.accountID)));
    }
  }

  /** The keys a batch asks for are the keys of its rows. */
  lemma BatchKeys(db: Snapshot, q: AccountQ, k: int)
    ensures
      var rows, batch := SelectRows(q.criteria, db.accounts), ScannedAccounts(db, q);
      && (k in IDs(batch) <==> exists r | r in rows :: r.id == k)
      && (q.withProxy.Some? ==> (k in FirstSeen(ProxyKeys(batch)) <==> exists r | r in rows :: r.proxyID == Some(k)))
      && (q.withParent.Some? ==>
          (k in FirstSeen(ParentKeys(batch)) <==> exists r | r in rows :: r.parentAccountID == Some(k)))
  {
    AccountColumnsKeep(q);
    var rows, batch := SelectRows(q.criteria, db.accounts), ScannedAccounts(db, q);
    forall r | r in rows && r.id == k ensures k in IDs(batch) {
      var i :| 0 <= i < |rows| && rows[i] == r;
      assert IDs(batch)[i] == k;
    }
    forall r | q.withProxy.Some? && r in rows && r.proxyID == Some(k) ensures Some(k) in ProxyKeys(batch) {
      var i :| 0 <= i < |rows| && rows[i] == r;
      assert ProxyKeys(batch)[i] == Some(k);
    }
    forall r | q.withParent.Some? && r in rows && r.parentAccountID == Some(k) ensures Some(k) in ParentKeys(batch) {
      var i :| 0 <= i < |rows| && rows[i] == r;
      assert ParentKeys(batch)[i] == Some(k);
    }
  }

  lemma ProxyFailsTogether(db: Snapshot, q: AccountQ)
    ensures ProxyError(q, ScannedAccounts(db, q)).Some? <==>
            exists r | r in SelectRows(q.criteria, db.accounts) :: ProxyFails(q, r)
  {
    var rows, ids := SelectRows(q.criteria, db.accounts), FirstSeen(ProxyKeys(ScannedAccounts(db, q)));
    if q.withProxy.Some? {
      if ids != [] { assert ids[0] in ids; BatchKeys(db, q, ids[0]); }
      forall r | r in rows && r.proxyID.Some? ensures ids != [] { BatchKeys(db, q, r.proxyID.value); }
    }
  }

  /** Some row's parent lookup fails exactly if looking up some key that the batch asks for fails. */
  lemma SomeParentFails(db: Snapshot, q: AccountQ, ids: seq<int>)
    requires q.withParent.Some? && ids == FirstSeen(ParentKeys(ScannedAccounts(db, q)))
    ensures
      (exists k | k in ids :: Fails(db, Where(q.withParent.value, IDIs(k)))) <==>
      exists r | r in SelectRows(q.criteria, db.accounts) :: ParentFails(db, q, r)
  {
    var rows, sub := SelectRows(q.criteria, db.accounts), q.withParent.value;
    forall k | k in ids && Fails(db, Where(sub, IDIs(k))) ensures exists r | r in rows :: ParentFails(db, q, r) {
      BatchKeys(db, q, k);
      var r :| r in rows && r.parentAccountID == Some(k);
      assert ParentFails(db, q, r);
    }
    forall r | r in rows && ParentFails(db, q, r) ensures r.parentAccountID.value in ids {
      BatchKeys(db, q, r.parentAccountID.value);
    }
  }

  lemma ParentFailsTogether(db: Snapshot, q: AccountQ)
    requires EdgesUnwindowed(q)
    ensures ParentError(db, q, ScannedAccounts(db, q)).Some? <==>
            exists r | r in SelectRows(q.criteria, db.accounts) :: ParentFails(db, q, r)
    decreases Height(q), 0
  {
    var ids := FirstSeen(ParentKeys(ScannedAccounts(db, q)));
    if q.withParent.Some? {
      SomeParentFails(db, q, ids);
      if ids != [] {
        FailsTogether(db, Where(q.withParent.value, IDIn(ids)));
        IDsFail(db, q.withParent.value, ids);
      }
    }
  }

  lemma ChildrenFailTogether(db: Snapshot, q: AccountQ)
    requires EdgesUnwindowed(q) && SelectRows(q.criteria, db.accounts) != []
    ensures ChildrenError(db, q, ScannedAccounts(db, q)).Some? <==>
            exists r | r in SelectRows(q.criteria, db.accounts) :: ChildrenFail(db, q, r)
    decreases Height(q), 0
  {
    var rows, ids := SelectRows(q.criteria, db.accounts), IDs(ScannedAccounts(db, q));
    if q.withChildren.Some? {
      var sub := KeyedChild(q.withChildren.value);
      forall k { BatchKeys(db, q, k); }
      assert ids[0] in ids;
      FailsTogether(db, Where(sub, ParentIn(ids)));
      ParentsFail(db, sub, ids);
      forall k | k in ids && Fails(db, Where(sub, ParentIs(k))) ensures exists r | r in rows :: ChildrenFail(db, q, r) {
        var r :| r in rows && r.id == k;
        assert ChildrenFail(db, q, r);
      }
      forall r | r in rows && ChildrenFail(db, q, r) ensures r.id in ids {}
    }
  }

  lemma JoinsFailTogether(db: Snapshot, q: AccountQ)
    requires EdgesUnwindowed(q) && SelectRows(q.criteria, db.accounts) != []
    ensures AccountGroupsError(db, q, ScannedAccounts(db, q)).Some? <==>
            exists r | r in SelectRows(q.criteria, db.accounts) :: JoinsFail(db, q, r)
    decreases Height(q), 0
  {
    var rows, ids := SelectRows(q.criteria, db.accounts), IDs(ScannedAccounts(db, q));
    if q.withAccountGroups.Some? {
      var sub := KeyedJoin(q.withAccountGroups.value);
      forall k { BatchKeys(db, q, k); }
      assert ids[0] in ids;
      JoinQueriesFailTogether(db, WhereJoin(sub, AccountIn(ids)));
      JoinedFail(db, sub, ids);
      forall k | k in ids && JoinQueryFails(db, WhereJoin(sub, AccountOf(k)))
        ensures exists r | r in rows :: JoinsFail(db, q, r)
      {
        var r :| r in rows && r.id == k;
        assert JoinsFail(db, q, r);
      }
      forall r | r in rows && JoinsFail(db, q, r) ensures r.id in ids {}
    }
  }

  /** A batched run returns an error exactly when the row-by-row run would meet one somewhere. */
  lemma {:induction false} FailsTogether(db: Snapshot, q: AccountQ)
    requires EdgesUnwindowed(q)
    ensures AccountsError(db, q).Some? <==> Fails(db, q)
    decreases Height(q), 1
  {
    var rows := SelectRows(q.criteria, db.accounts);
    if rows != [] && Prepare(q.criteria.inters, q.fields, ACCOUNT_COLUMNS).None? {
      assert rows[0] in rows;
      ProxyFailsTogether(db, q);
      ParentFailsTogether(db, q);
      ChildrenFailTogether(db, q);
      JoinsFailTogether(db, q);
      assert GroupsError(q).Some? ==> RowFails(db, q, rows[0]);
    }
  }

  lemma {:induction false} JoinQueriesFailTogether(db: Snapshot, q: JoinQ)
    requires JoinEdgesUnwindowed(q)
    ensures JoinsError(db, q).Some? <==> JoinQueryFails(db, q)
    decreases JoinHeight(q), 1
  {
    var rows, batch := SelectRows(q.criteria, db.accountGroups), ScannedJoins(db, q);
    if rows != [] && Prepare(q.criteria.inters, q.fields, JOIN_COLUMNS).None? {
      assert rows[0] in rows;
      assert JoinGroupError(q).Some? ==> JoinRowFails(db, q, rows[0]);
      JoinAccountFailsTogether(db, q);
    }
  }

  lemma SomeAccountFails(db: Snapshot, q: JoinQ, ids: seq<int>)
    requires q.withAccount.Some? && ids == FirstSeen(AccountKeys(ScannedJoins(db, q)))
    ensures
      (exists k | k in ids :: Fails(db, Where(q.withAccount.value, IDIs(k)))) <==>
      exists r | r in SelectRows(q.criteria, db.accountGroups) :: AccountFails(db, q, r)
  {
    var rows, sub := SelectRows(q.criteria, db.accountGroups), q.withAccount.value;
    var keys := AccountKeys(ScannedJoins(db, q));
    assert forall i | 0 <= i < |rows| :: keys[i] == Some(rows[i].accountID);
    forall k | k in ids && Fails(db, Where(sub, IDIs(k))) ensures exists r | r in rows :: AccountFails(db, q, r) {
      var i :| 0 <= i < |keys| && keys[i] == Some(k);
      assert rows[i] in rows && AccountFails(db, q, rows[i]);
    }
    forall r | r in rows && AccountFails(db, q, r) ensures r.accountID in ids {
      var i :| 0 <= i < |rows| && rows[i] == r;
      assert keys[i] in keys;
    }
  }

  lemma JoinAccountFailsTogether(db: Snapshot, q: JoinQ)
    requires JoinEdgesUnwindowed(q) && SelectRows(q.criteria, db.accountGroups) != []
    ensures JoinAccountError(db, q, ScannedJoins(db, q)).Some? <==>
            exists r | r in SelectRows(q.criteria, db.accountGroups) :: AccountFails(db, q, r)
    decreases JoinHeight(q), 0
  {
    if q.withAccount.Some? {
      var keys := AccountKeys(ScannedJoins(db, q));
      var ids := FirstSeen(keys);
      SomeAccountFails(db, q, ids);
      assert keys[0] in keys && keys[0].value in ids;
      FailsTogether(db, Where(q.withAccount.value, IDIn(ids)));
      IDsFail(db, q.withAccount.value, ids);
    }
  }
}
