/** What a caller gets from running a query, or a clone of it in its place. */
module Running {
  import opened Wrappers
  import opened Relational
  import opened Schema
  import opened Queries
  import opened Entities
  import opened Access
  import opened Loading
  import opened NestedLoop
  import opened Failures
  import opened FirstErrors

  /** How many of n filtered rows fit on the page of a query. */
  function PageLength<R>(c: Criteria<R>, n: nat): nat {
    var left := if n <= PageStart(c) then 0 else n - PageStart(c);
    if c.limit.Some? && c.limit.value > 0 then (if left <= c.limit.value then left else c.limit.value)
    else if PageStart(c) > 0 then (if left <= MAX_INT32 then left else MAX_INT32)
    else left
  }

  lemma SelectedRow<R>(c: Criteria<R>, table: seq<R>, i: nat)
    ensures |SelectRows(c, table)| == PageLength(c, |Filtered(c, table)|)
    ensures i < |SelectRows(c, table)| ==>
      PageStart(c) + i < |Filtered(c, table)| && SelectRows(c, table)[i] == Filtered(c, table)[PageStart(c) + i]
  {
    SelectIsPage(c, table);
  }

  /** An object that stands for what looking up the edges of a row one by one would give, and shows the columns of
      that row which the query selects, or all of it. */
  ghost predicate IsAlone(db: Snapshot, q: AccountQ, row: AccountRow, a: Account, w: World)
    reads a, w.accounts.Keys
  {
    && a in w.accounts && View(GroupsRanked(db, q), w.accounts[a]) == Alone(GroupsRanked(db, q), db, q, row)
    && RowOfQuery(q, row, a.Row())
  }

  ghost predicate OnPage(db: Snapshot, q: AccountQ, a: Account, i: nat, w: World)
    reads a, w.accounts.Keys
  {
    var all, start := Filtered(q.criteria, db.accounts), PageStart(q.criteria);
    start + i < |all| && IsAlone(db, q, all[start + i], a, w)
  }

  lemma LoadedIsAlone(db: Snapshot, q: AccountQ, nodes: seq<Account>, w: World, i: nat)
    requires ValidSnapshot(db) && EdgesUnwindowed(q) && LoadedAccounts(nodes, Accounts(db, q), w)
    requires i < |SelectRows(q.criteria, db.accounts)|
    ensures |nodes| == |SelectRows(q.criteria, db.accounts)| && OnPage(db, q, nodes[i], i, w)
  {
    AccountsRows(db, q);
    SelectedRow(q.criteria, db.accounts, i);
    BatchIsAlone(GroupsRanked(db, q), db, q, i);
    assert AccountOK(nodes[i], Accounts(db, q)[i], w);
    RowIsOfQuery(q, SelectRows(q.criteria, db.accounts)[i]);
  }

  /** The objects are those of the page, one for each filtered row that is on it, in order. */
  ghost predicate Answers(db: Snapshot, q: AccountQ, nodes: seq<Account>, w: World)
    reads nodes, w.accounts.Keys
  {
    && |nodes| == PageLength(q.criteria, |Filtered(q.criteria, db.accounts)|)
    && forall i | 0 <= i < |nodes| :: OnPage(db, q, nodes[i], i, w)
  }

  lemma LoadedAnswers(db: Snapshot, q: AccountQ, nodes: seq<Account>, w: World)
    requires ValidSnapshot(db) && EdgesUnwindowed(q) && LoadedAccounts(nodes, Accounts(db, q), w)
    ensures Answers(db, q, nodes, w)
  {
    AccountsRows(db, q);
    SelectedRow(q.criteria, db.accounts, 0);
    forall i | 0 <= i < |nodes| { LoadedIsAlone(db, q, nodes, w, i); }
  }

  /** The end-to-end statement: running a builder whose edge queries carry no windows gives, for every
      filtered row that is on its page, in order, an object that stands for what looking up that row's edges one by
      one would give, and it fails exactly if one of those lookups would fail. The groups of an account come in
      the order of their query too, if the group queries rank the groups that they select apart. */
  method RunExactly(query: AccountQuery, db: Snapshot) returns (r: Result<seq<Account>, Error>, ghost w: World)
    requires query.Valid() && Stored(db) && EdgesUnwindowed(query.Value())
    modifies query.Repr
    ensures r.Failure? <==> Fails(db, old(query.Value()))
    ensures r.Failure? ==> Reports(db, old(query.Value()), r.error)
    ensures r.Success? ==> Closed(w) && Answers(db, old(query.Value()), r.value, w)
  {
    ghost var q := query.Value();
    FailsTogether(db, q);
    r, w := query.All(db);
    if r.Success? { LoadedAnswers(db, q, r.value, w); } else { ErrorIsReported(db, q, r.error); }
  }

  /** A clone returns what the original would, and although every loader narrows the builder it runs,
      no builder of the original is written: the method modifies no object that existed before. */
  method RunClone(query: AccountQuery, db: Snapshot) returns (r: Result<seq<Account>, Error>, ghost w: World)
    requires query.Valid() && Stored(db)
    ensures query.Valid() && query.Value() == old(query.Value())
    ensures r.Failure? <==> AccountsError(db, query.Value()).Some?
    ensures r.Failure? ==> Some(r.error) == AccountsError(db, query.Value())
    ensures r.Success? ==> LoadedAccounts(r.value, Accounts(db, query.Value()), w)
    ensures fresh(w.accounts.Keys) && fresh(w.joins.Keys)
  {
    var clone := query.Clone();
    r, w := clone.All(db);
  }

  /** So a query kept as a template can be run as often as one likes. */
  method RunTwice(query: AccountQuery, db: Snapshot)
    returns (first: Result<seq<Account>, Error>, second: Result<seq<Account>, Error>, ghost v: World, ghost w: World)
    requires query.Valid() && Stored(db)
    ensures first.Success? <==> second.Success?
    ensures first.Success? ==> LoadedAccounts(first.value, Accounts(db, query.Value()), v)
    ensures second.Success? ==> LoadedAccounts(second.value, Accounts(db, query.Value()), w) && Apart(v, w)
  {
    first, v := RunClone(query, db);
    second, w := RunClone(query, db);
  }
}
