/** Which error comes out of a failing query: that of the first edge, in the order in which edges are loaded, at which
    looking up some row fails, and it is the error which that lookup comes out with. */
module FirstErrors {
  import opened Wrappers
  import opened Relational
  import opened Schema
  import opened Joins
  import opened Queries
  import opened Stages
  import opened NestedLoop
  import opened Failures

  /** The edges of an account, in the order in which they are loaded. */
  datatype AccountEdge = ToGroups | ToProxy | ToParent | ToChildren | ToJoins
  {
    predicate Before(e: AccountEdge) {
      match this
      case ToGroups => e != ToGroups
      case ToProxy => e != ToGroups && e != ToProxy
      case ToParent => e == ToChildren || e == ToJoins
      case ToChildren => e == ToJoins
      case ToJoins => false
    }
  }

  /** Looking up an edge of a single row fails. */
  ghost predicate EdgeFails(db: Snapshot, q: AccountQ, row: AccountRow, e: AccountEdge) {
    match e
    case ToGroups => GroupsError(q).Some?
    case ToProxy => ProxyFails(q, row)
    case ToParent => ParentFails(db, q, row)
    case ToChildren => ChildrenFail(db, q, row)
    case ToJoins => JoinsFail(db, q, row)
  }

  /** It does, with this error. */
  ghost predicate EdgeReports(db: Snapshot, q: AccountQ, row: AccountRow, e: AccountEdge, err: Error)
    decreases Height(q), 0
  {
    match e
    case ToGroups => GroupsError(q) == Some(err)
    case ToProxy => ProxyFails(q, row) && PrepareLeaf(q.withProxy.value) == Some(err)
    case ToParent =>
      && q.withParent.Some? && row.parentAccountID.Some?
      && Reports(db, Where(q.withParent.value, IDIs(row.parentAccountID.value)), err)
    case ToChildren =>
      q.withChildren.Some? && Reports(db, Where(KeyedChild(q.withChildren.value), ParentIs(row.id)), err)
    case ToJoins =>
      && q.withAccountGroups.Some?
      && JoinQueryReports(db, WhereJoin(KeyedJoin(q.withAccountGroups.value), AccountOf(row.id)), err)
  }

  ghost predicate NoneBefore(db: Snapshot, q: AccountQ, e: AccountEdge) {
    forall row, f: AccountEdge | row in SelectRows(q.criteria, db.accounts) && f.Before(e) :: !EdgeFails(db, q, row, f)
  }

  /** The error of preparing the query, or that of some row at the first edge at which any row fails. */
  ghost predicate Reports(db: Snapshot, q: AccountQ, err: Error)
    decreases Height(q), 1
  {
    var error := Prepare(q.criteria.inters, q.fields, ACCOUNT_COLUMNS);
    if error.Some? then error == Some(err)
    else exists row, e | row in SelectRows(q.criteria, db.accounts) ::
      EdgeReports(db, q, row, e, err) && NoneBefore(db, q, e)
  }

  /** The same for a query on the join table, whose accounts are loaded before its groups. */
  ghost predicate JoinQueryReports(db: Snapshot, q: JoinQ, err: Error)
    decreases JoinHeight(q), 1
  {
    var error, rows := Prepare(q.criteria.inters, q.fields, JOIN_COLUMNS), SelectRows(q.criteria, db.accountGroups);
    if error.Some? then error == Some(err)
    else if exists row | row in rows :: AccountFails(db, q, row) then
      exists row | row in rows :: AccountReports(db, q, row, err)
    else rows != [] && JoinGroupError(q) == Some(err)
  }

  ghost predicate AccountReports(db: Snapshot, q: JoinQ, row: JoinTableRow, err: Error)
    decreases JoinHeight(q), 0
  {
    q.withAccount.Some? && Reports(db, Where(q.withAccount.value, IDIs(row.accountID)), err)
  }

  // ----- from the batch to one lookup -----

  /** An edge does not depend on how the query itself was narrowed. */
  lemma EdgesIgnoreCriteria(db: Snapshot, q: AccountQ, c: Criteria<AccountRow>, row: AccountRow, e: AccountEdge,
                            err: Error)
    ensures EdgeFails(db, q.(criteria := c), row, e) == EdgeFails(db, q, row, e)
    ensures EdgeReports(db, q.(criteria := c), row, e, err) == EdgeReports(db, q, row, e, err)
  {
  }

  /** What a narrowed query reports, one that is narrowed further reports too, if it keeps the row at fault. */
  lemma NarrowerReports(db: Snapshot, q: AccountQ, many: AccountRow -> bool, one: AccountRow -> bool,
                        row: AccountRow, e: AccountEdge, err: Error)
    requires Unwindowed(q.criteria) && Prepare(q.criteria.inters, q.fields, ACCOUNT_COLUMNS).None?
    requires row in SelectRows(Where(q, many).criteria, db.accounts) && one(row) && forall r :: one(r) ==> many(r)
    requires EdgeReports(db, Where(q, many), row, e, err) && NoneBefore(db, Where(q, many), e)
    ensures Reports(db, Where(q, one), err)
  {
    var wide, narrow := Where(q, many), Where(q, one);
    var rows := SelectRows(narrow.criteria, db.accounts);
    forall r ensures r in rows <==> r in SelectRows(wide.criteria, db.accounts) && one(r) {
      SelectComplete(narrow.criteria, db.accounts, r);
      SelectComplete(wide.criteria, db.accounts, r);
      NarrowSelects(q.criteria, one, r);
      NarrowSelects(q.criteria, many, r);
    }
    EdgesIgnoreCriteria(db, wide, narrow.criteria, row, e, err);
    forall r, f: AccountEdge | r in rows && f.Before(e) ensures !EdgeFails(db, narrow, r, f) {
      EdgesIgnoreCriteria(db, wide, narrow.criteria, r, f, err);
    }
  }

  lemma IDsReport(db: Snapshot, q: AccountQ, ids: seq<int>, err: Error) returns (k: int)
    requires Unwindowed(q.criteria) && ids != [] && Reports(db, Where(q, IDIn(ids)), err)
    ensures k in ids && Reports(db, Where(q, IDIs(k)), err)
  {
    var wide := Where(q, IDIn(ids));
    k := ids[0];
    if Prepare(q.criteria.inters, q.fields, ACCOUNT_COLUMNS).None? {
      var row, e :| row in SelectRows(wide.criteria, db.accounts) &&
                    EdgeReports(db, wide, row, e, err) && NoneBefore(db, wide, e);
      SelectMember(wide.criteria, db.accounts, row);
      NarrowSelects(q.criteria, IDIn(ids), row);
      k := row.id;
      NarrowerReports(db, q, IDIn(ids), IDIs(k), row, e, err);
    }
  }

  lemma ParentsReport(db: Snapshot, q: AccountQ, ids: seq<int>, err: Error) returns (k: int)
    requires Unwindowed(q.criteria) && ids != [] && Reports(db, Where(q, ParentIn(ids)), err)
    ensures k in ids && Reports(db, Where(q, ParentIs(k)), err)
  {
    var wide := Where(q, ParentIn(ids));
    k := ids[0];
    if Prepare(q.criteria.inters, q.fields, ACCOUNT_COLUMNS).None? {
      var row, e :| row in SelectRows(wide.criteria, db.accounts) &&
                    EdgeReports(db, wide, row, e, err) && NoneBefore(db, wide, e);
      SelectMember(wide.criteria, db.accounts, row);
      NarrowSelects(q.criteria, ParentIn(ids), row);
      k := row.parentAccountID.value;
      NarrowerReports(db, q, ParentIn(ids), ParentIs(k), row, e, err);
    }
  }

  lemma JoinEdgesIgnoreCriteria(db: Snapshot, q: JoinQ, c: Criteria<JoinTableRow>, row: JoinTableRow, err: Error)
    ensures AccountFails(db, q.(criteria := c), row) == AccountFails(db, q, row)
    ensures AccountReports(db, q.(criteria := c), row, err) == AccountReports(db, q, row, err)
  {
  }

  lemma NarrowedJoinRows(db: Snapshot, q: JoinQ, ids: seq<int>, k: int)
    requires Unwindowed(q.criteria) && k in ids
    ensures forall r :: r in SelectRows(WhereJoin(q, AccountOf(k)).criteria, db.accountGroups) <==>
              r in SelectRows(WhereJoin(q, AccountIn(ids)).criteria, db.accountGroups) && r.accountID == k
  {
    var wide, narrow := WhereJoin(q, AccountIn(ids)).criteria, WhereJoin(q, AccountOf(k)).criteria;
    forall r
      ensures r in SelectRows(narrow, db.accountGroups) <==> r in SelectRows(wide, db.accountGroups) && r.accountID == k
    {
      SelectComplete(narrow, db.accountGroups, r);
      SelectComplete(wide, db.accountGroups, r);
      NarrowSelects(q.criteria, AccountOf(k), r);
      NarrowSelects(q.criteria, AccountIn(ids), r);
    }
  }

  lemma JoinedReport(db: Snapshot, q: JoinQ, ids: seq<int>, err: Error) returns (k: int)
    requires Unwindowed(q.criteria) && ids != [] && JoinQueryReports(db, WhereJoin(q, AccountIn(ids)), err)
    ensures k in ids && JoinQueryReports(db, WhereJoin(q, AccountOf(k)), err)
  {
    var wide := WhereJoin(q, AccountIn(ids));
    var rows := SelectRows(wide.criteria, db.accountGroups);
    k := ids[0];
    if Prepare(q.criteria.inters, q.fields, JOIN_COLUMNS).None? {
      var row := rows[0];
      if exists r | r in rows :: AccountFails(db, wide, r) {
        row :| row in rows && AccountReports(db, wide, row, err);
      }
      SelectMember(wide.criteria, db.accountGroups, row);
      NarrowSelects(q.criteria, AccountIn(ids), row);
      k := row.accountID;
      NarrowedJoinRows(db, q, ids, k);
      KeptReports(db, wide, WhereJoin(q, AccountOf(k)), row, err);
    }
  }

  lemma ReportsFails(db: Snapshot, q: AccountQ, err: Error)
    requires Reports(db, q, err)
    ensures Fails(db, q)
    decreases Height(q), 1
  {
    if Prepare(q.criteria.inters, q.fields, ACCOUNT_COLUMNS).None? {
      var row, e :| row in SelectRows(q.criteria, db.accounts) && EdgeReports(db, q, row, e, err);
      EdgeReportsFails(db, q, row, e, err);
      assert RowFails(db, q, row);
    }
  }

  lemma EdgeReportsFails(db: Snapshot, q: AccountQ, row: AccountRow, e: AccountEdge, err: Error)
    requires EdgeReports(db, q, row, e, err)
    ensures EdgeFails(db, q, row, e)
    decreases Height(q), 0
  {
    match e {
      case ToGroups =>
      case ToProxy =>
      case ToParent => ReportsFails(db, Where(q.withParent.value, IDIs(row.parentAccountID.value)), err);
      case ToChildren => ReportsFails(db, Where(KeyedChild(q.withChildren.value), ParentIs(row.id)), err);
      case ToJoins =>
        JoinReportsFails(db, WhereJoin(KeyedJoin(q.withAccountGroups.value), AccountOf(row.id)), err);
    }
  }

  lemma JoinReportsFails(db: Snapshot, q: JoinQ, err: Error)
    requires JoinQueryReports(db, q, err)
    ensures JoinQueryFails(db, q)
    decreases JoinHeight(q), 1
  {
    var rows := SelectRows(q.criteria, db.accountGroups);
    if Prepare(q.criteria.inters, q.fields, JOIN_COLUMNS).None? {
      if row :| row in rows && AccountFails(db, q, row) {
        assert JoinRowFails(db, q, row);
      } else {
        assert rows[0] in rows && JoinRowFails(db, q, rows[0]);
      }
    }
  }

  lemma KeptReports(db: Snapshot, wide: JoinQ, narrow: JoinQ, row: JoinTableRow, err: Error)
    requires narrow == wide.(criteria := narrow.criteria) && narrow.criteria.inters == wide.criteria.inters
    requires Prepare(wide.criteria.inters, wide.fields, JOIN_COLUMNS).None? && JoinQueryReports(db, wide, err)
    requires row in SelectRows(narrow.criteria, db.accountGroups)
    requires forall r | r in SelectRows(narrow.criteria, db.accountGroups) ::
      r in SelectRows(wide.criteria, db.accountGroups)
    requires (exists r | r in SelectRows(wide.criteria, db.accountGroups) :: AccountFails(db, wide, r)) ==>
      AccountReports(db, wide, row, err)
    ensures JoinQueryReports(db, narrow, err)
  {
    var rows := SelectRows(narrow.criteria, db.accountGroups);
    forall r { JoinEdgesIgnoreCriteria(db, wide, narrow.criteria, r, err); }
    if AccountReports(db, wide, row, err) && exists r | r in SelectRows(wide.criteria, db.accountGroups) ::
      AccountFails(db, wide, r) {
      ReportsFails(db, Where(wide.withAccount.value, IDIs(row.accountID)), err);
      assert AccountFails(db, narrow, row);
    }
  }

  // ----- the batch reports what a lookup does -----

  lemma ProxyReported(db: Snapshot, q: AccountQ, err: Error) returns (row: AccountRow)
    requires ProxyError(q, ScannedAccounts(db, q)) == Some(err)
    ensures row in SelectRows(q.criteria, db.accounts) && EdgeReports(db, q, row, ToProxy, err)
  {
    ProxyFailsTogether(db, q);
    row :| row in SelectRows(q.criteria, db.accounts) && ProxyFails(q, row);
  }

  lemma ParentReported(db: Snapshot, q: AccountQ, err: Error) returns (row: AccountRow)
    requires EdgesUnwindowed(q) && ParentError(db, q, ScannedAccounts(db, q)) == Some(err)
    ensures row in SelectRows(q.criteria, db.accounts) && EdgeReports(db, q, row, ToParent, err)
    decreases Height(q), 0
  {
    var ids := FirstSeen(ParentKeys(ScannedAccounts(db, q)));
    ErrorIsReported(db, ParentQuery(q, ScannedAccounts(db, q)), err);
    var k := IDsReport(db, q.withParent.value, ids, err);
    BatchKeys(db, q, k);
    row :| row in SelectRows(q.criteria, db.accounts) && row.parentAccountID == Some(k);
  }

  lemma ChildrenReported(db: Snapshot, q: AccountQ, err: Error) returns (row: AccountRow)
    requires EdgesUnwindowed(q) && SelectRows(q.criteria, db.accounts) != []
    requires ChildrenError(db, q, ScannedAccounts(db, q)) == Some(err)
    ensures row in SelectRows(q.criteria, db.accounts) && EdgeReports(db, q, row, ToChildren, err)
    decreases Height(q), 0
  {
    ErrorIsReported(db, ChildrenQuery(q, ScannedAccounts(db, q)), err);
    var k := ParentsReport(db, KeyedChild(q.withChildren.value), IDs(ScannedAccounts(db, q)), err);
    BatchKeys(db, q, k);
    row :| row in SelectRows(q.criteria, db.accounts) && row.id == k;
  }

  lemma JoinsReported(db: Snapshot, q: AccountQ, err: Error) returns (row: AccountRow)
    requires EdgesUnwindowed(q) && SelectRows(q.criteria, db.accounts) != []
    requires AccountGroupsError(db, q, ScannedAccounts(db, q)) == Some(err)
    ensures row in SelectRows(q.criteria, db.accounts) && EdgeReports(db, q, row, ToJoins, err)
    decreases Height(q), 0
  {
    JoinErrorIsReported(db, AccountGroupsQuery(q, ScannedAccounts(db, q)), err);
    var k := JoinedReport(db, KeyedJoin(q.withAccountGroups.value), IDs(ScannedAccounts(db, q)), err);
    BatchKeys(db, q, k);
    row :| row in SelectRows(q.criteria, db.accounts) && row.id == k;
  }

  lemma FirstEdge(db: Snapshot, q: AccountQ, err: Error) returns (row: AccountRow, e: AccountEdge)
    requires EdgesUnwindowed(q) && SelectRows(q.criteria, db.accounts) != []
    requires EdgesError(db, q, ScannedAccounts(db, q)) == Some(err)
    ensures row in SelectRows(q.criteria, db.accounts) && EdgeReports(db, q, row, e, err) && NoneBefore(db, q, e)
    decreases Height(q), 1
  {
    var rows, batch := SelectRows(q.criteria, db.accounts), ScannedAccounts(db, q);
    ProxyFailsTogether(db, q);
    ParentFailsTogether(db, q);
    ChildrenFailTogether(db, q);
    if GroupsError(q).Some? {
      row, e := rows[0], ToGroups;
    } else if ProxyError(q, batch).Some? {
      e := ToProxy;
      row := ProxyReported(db, q, err);
    } else if ParentError(db, q, batch).Some? {
      e := ToParent;
      row := ParentReported(db, q, err);
    } else if ChildrenError(db, q, batch).Some? {
      e := ToChildren;
      row := ChildrenReported(db, q, err);
    } else {
      e := ToJoins;
      row := JoinsReported(db, q, err);
    }
  }

  /** The error with which a batched run fails is one with which looking up some row fails: the first in the order of
      the edges, at every level. */
  lemma {:induction false} ErrorIsReported(db: Snapshot, q: AccountQ, err: Error)
    requires EdgesUnwindowed(q) && AccountsError(db, q) == Some(err)
    ensures Reports(db, q, err)
    decreases Height(q), 2
  {
    if Prepare(q.criteria.inters, q.fields, ACCOUNT_COLUMNS).None? {
      var row, e := FirstEdge(db, q, err);
    }
  }

  lemma JoinAccountReported(db: Snapshot, q: JoinQ, err: Error) returns (row: JoinTableRow)
    requires JoinEdgesUnwindowed(q) && SelectRows(q.criteria, db.accountGroups) != []
    requires JoinAccountError(db, q, ScannedJoins(db, q)) == Some(err)
    ensures row in SelectRows(q.criteria, db.accountGroups) && AccountReports(db, q, row, err)
    decreases JoinHeight(q), 0
  {
    var rows, keys := SelectRows(q.criteria, db.accountGroups), AccountKeys(ScannedJoins(db, q));
    assert keys[0] in keys && keys[0].value in FirstSeen(keys);
    ErrorIsReported(db, JoinAccountQuery(q, ScannedJoins(db, q)), err);
    var k := IDsReport(db, q.withAccount.value, FirstSeen(keys), err);
    var i :| 0 <= i < |keys| && keys[i] == Some(k);
    row := rows[i];
  }

  lemma {:induction false} JoinErrorIsReported(db: Snapshot, q: JoinQ, err: Error)
    requires JoinEdgesUnwindowed(q) && JoinsError(db, q) == Some(err)
    ensures JoinQueryReports(db, q, err)
    decreases JoinHeight(q), 2
  {
    if Prepare(q.criteria.inters, q.fields, JOIN_COLUMNS).None? {
      JoinAccountFailsTogether(db, q);
      if JoinAccountError(db, q, ScannedJoins(db, q)).Some? { var row := JoinAccountReported(db, q, err); }
    }
  }
}
