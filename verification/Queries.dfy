/** Query builders as values, and what running one with eager loading returns: every edge is loaded
    by one query for the whole batch of nodes and then handed out by key. */
module Queries {
  import opened Wrappers
  import opened Relational
  import opened Schema
  import opened Joins

  // ----- builders -----

  /** A query on a table whose own edges are not part of the model (groups, proxies). */
  datatype LeafQ = LeafQ(columns: seq<string>, fields: seq<string>, criteria: Criteria<LeafRow>)

  datatype AccountQ = AccountQ(
    fields: seq<AccountColumn>,
    criteria: Criteria<AccountRow>,
    withGroups: Option<LeafQ>,
    withProxy: Option<LeafQ>,
    withParent: Option<AccountQ>,
    withChildren: Option<AccountQ>,
    withAccountGroups: Option<JoinQ>)

  /** A query on the join table account_groups. */
  datatype JoinQ = JoinQ(
    fields: seq<JoinColumn>,
    criteria: Criteria<JoinTableRow>,
    withAccount: Option<AccountQ>,
    withGroup: Option<LeafQ>)

  function Max(a: nat, b: nat): nat { if a < b then b else a }

  /** The height of the tree of edge queries. */
  function Height(q: AccountQ): nat {
    1 + Max(
      if q.withGroups.Some? || q.withProxy.Some? then 1 else 0,
      Max(if q.withParent.Some? then Height(q.withParent.value) else 0,
          Max(if q.withChildren.Some? then Height(q.withChildren.value) else 0,
              if q.withAccountGroups.Some? then JoinHeight(q.withAccountGroups.value) else 0)))
  }

  function JoinHeight(q: JoinQ): nat {
    1 + Max(
      if q.withGroup.Some? then 1 else 0,
      if q.withAccount.Some? then Height(q.withAccount.value) else 0)
  }

  function Where(q: AccountQ, p: AccountRow -> bool): (narrowed: AccountQ)
    ensures Height(narrowed) == Height(q)
  {
    q.(criteria := Narrow(q.criteria, p))
  }

  function WhereJoin(q: JoinQ, p: JoinTableRow -> bool): (narrowed: JoinQ)
    ensures JoinHeight(narrowed) == JoinHeight(q)
  {
    q.(criteria := Narrow(q.criteria, p))
  }

  function WhereLeaf(q: LeafQ, p: LeafRow -> bool): LeafQ {
    q.(criteria := Narrow(q.criteria, p))
  }

  function IDIn(ids: seq<int>): AccountRow -> bool { (r: AccountRow) => r.id in ids }

  function ParentIn(ids: seq<int>): AccountRow -> bool {
    (r: AccountRow) => r.parentAccountID.Some? && r.parentAccountID.value in ids
  }

  function LeafIDIn(ids: seq<int>): LeafRow -> bool { (r: LeafRow) => r.id in ids }

  function AccountIn(ids: seq<int>): JoinTableRow -> bool { (r: JoinTableRow) => r.accountID in ids }

  /** A child query that selects columns gets its foreign key as well. */
  function KeyedChild(q: AccountQ): (keyed: AccountQ)
    ensures Height(keyed) == Height(q)
  {
    if q.fields == [] then q else q.(fields := AddColumnOnce(q.fields, ParentAccountID))
  }

  function KeyedJoin(q: JoinQ): (keyed: JoinQ)
    ensures JoinHeight(keyed) == JoinHeight(q)
  {
    if q.fields == [] then q else q.(fields := AddColumnOnce(q.fields, AccountIDColumn))
  }

  // ----- columns -----

  /** The id first, then the requested columns other than the id. */
  function IDThen<C(==,!new)>(id: C, fields: seq<C>): seq<C> {
    [id] + Keep(f => f != id, fields)
  }

  function AccountColumns(fields: seq<AccountColumn>, withProxy: bool, withParent: bool): seq<AccountColumn> {
    if fields == [] then ACCOUNT_COLUMNS
    else
      var cols := IDThen(ID, fields);
      var cols := if withProxy then AddColumnOnce(cols, ProxyID) else cols;
      if withParent then AddColumnOnce(cols, ParentAccountID) else cols
  }

  function ColumnsOf(q: AccountQ): seq<AccountColumn> {
    AccountColumns(q.fields, q.withProxy.Some?, q.withParent.Some?)
  }

  function JoinColumns(fields: seq<JoinColumn>, withAccount: bool, withGroup: bool): seq<JoinColumn> {
    if fields == [] then JOIN_COLUMNS
    else
      var cols := if withAccount then AddColumnOnce(fields, AccountIDColumn) else fields;
      if withGroup then AddColumnOnce(cols, GroupIDColumn) else cols
  }

  function JoinColumnsOf(q: JoinQ): seq<JoinColumn> {
    JoinColumns(q.fields, q.withAccount.Some?, q.withGroup.Some?)
  }

  function LeafColumns(q: LeafQ): seq<string> {
    if q.fields == [] then ["id"] + q.columns else IDThen("id", q.fields)
  }

  // ----- preparing -----

  function Prepare<R, C(==)>(inters: seq<Interceptor<R>>, fields: seq<C>, columns: seq<C>): Option<Error> {
    if PrepareError(inters).Some? then PrepareError(inters)
    else if exists i | 0 <= i < |fields| :: fields[i] !in columns then Some(InvalidField)
    else None
  }

  function PrepareLeaf(q: LeafQ): Option<Error> {
    Prepare(q.criteria.inters, q.fields, ["id"] + q.columns)
  }

  // ----- loaded trees -----

  /** Which edges a query asked for. */
  datatype Loaded = Loaded(groups: bool, proxy: bool, parent: bool, children: bool, accountGroups: bool)

  datatype JoinLoaded = JoinLoaded(account: bool, group: bool)

  datatype AccountTree = AccountTree(
    row: AccountRow,
    loaded: Loaded,
    groups: seq<LeafRow>,
    proxy: Option<LeafRow>,
    parent: Option<AccountTree>,
    children: seq<AccountTree>,
    accountGroups: seq<JoinTree>)

  datatype JoinTree = JoinTree(
    row: JoinTableRow,
    loaded: JoinLoaded,
    account: Option<AccountTree>,
    group: Option<LeafRow>)

  function TreeID(t: AccountTree): int { t.row.id }

  function LoadedOf(q: AccountQ): Loaded {
    Loaded(q.withGroups.Some?, q.withProxy.Some?, q.withParent.Some?, q.withChildren.Some?, q.withAccountGroups.Some?)
  }

  function JoinLoadedOf(q: JoinQ): JoinLoaded {
    JoinLoaded(q.withAccount.Some?, q.withGroup.Some?)
  }

  /** A node as the scan leaves it, before any edge is loaded. */
  function Bare(row: AccountRow, loaded: Loaded): AccountTree {
    AccountTree(row, loaded, [], None, None, [], [])
  }

  function ParentKey(t: AccountTree): Option<int> { t.row.parentAccountID }

  function JoinKey(t: JoinTree): Option<int> { Some(t.row.accountID) }

  function ChildrenOf(id: int, trees: seq<AccountTree>): seq<AccountTree> {
    WithKey(trees, Map(ParentKey, trees), id)
  }

  function JoinsOf(id: int, trees: seq<JoinTree>): seq<JoinTree> {
    WithKey(trees, Map(JoinKey, trees), id)
  }

  // ----- running a query -----

  function Leaves(table: seq<LeafRow>, q: LeafQ): seq<LeafRow> {
    var rows := SelectRows(q.criteria, table);
    seq(|rows|, i requires 0 <= i < |rows| => ProjectLeaf(LeafColumns(q), rows[i]))
  }

  /** account_groups joined with groups, one row for every pair that matches. */
  function JoinTable(joins: seq<JoinTableRow>, groups: seq<LeafRow>): seq<JoinRow> {
    if joins == [] then []
    else JoinTable(joins[..|joins| - 1], groups) + JoinWith(joins[|joins| - 1], groups)
  }

  function JoinWith(join: JoinTableRow, groups: seq<LeafRow>): seq<JoinRow> {
    if groups == [] then []
    else
      var last := groups[|groups| - 1];
      JoinWith(join, groups[..|groups| - 1]) +
      if last.id == join.groupID then [JoinRow(join.accountID, last)] else []
  }

  /** The criteria of a group query, applied to the rows of the join. */
  function Lift(c: Criteria<LeafRow>, ids: seq<int>): Criteria<JoinRow> {
    Criteria([(j: JoinRow) => Selects(c, j.group) && j.accountID in ids], [],
             (j: JoinRow) => c.order(j.group), c.limit, c.offset)
  }

  /** The rows that loading the groups of these accounts streams back. */
  function GroupStream(db: Snapshot, q: LeafQ, ids: seq<int>): seq<JoinRow> {
    var rows := SelectRows(Lift(q.criteria, ids), JoinTable(db.accountGroups, db.groups));
    seq(|rows|, i requires 0 <= i < |rows| => JoinRow(rows[i].accountID, ProjectLeaf(LeafColumns(q), rows[i].group)))
  }

  /** The rows of a query as the scan brings them back. */
  function ScannedAccounts(db: Snapshot, q: AccountQ): seq<AccountRow> {
    var rows := SelectRows(q.criteria, db.accounts);
    seq(|rows|, i requires 0 <= i < |rows| => ProjectAccount(ColumnsOf(q), rows[i]))
  }

  function ScannedJoins(db: Snapshot, q: JoinQ): seq<JoinTableRow> {
    var rows := SelectRows(q.criteria, db.accountGroups);
    seq(|rows|, i requires 0 <= i < |rows| => ProjectJoin(JoinColumnsOf(q), rows[i]))
  }

  function IDs(rows: seq<AccountRow>): seq<int> {
    seq(|rows|, i requires 0 <= i < |rows| => rows[i].id)
  }

  function ProxyKeys(rows: seq<AccountRow>): seq<Option<int>> {
    seq(|rows|, i requires 0 <= i < |rows| => rows[i].proxyID)
  }

  function ParentKeys(rows: seq<AccountRow>): seq<Option<int>> {
    seq(|rows|, i requires 0 <= i < |rows| => rows[i].parentAccountID)
  }

  function AccountKeys(rows: seq<JoinTableRow>): seq<Option<int>> {
    seq(|rows|, i requires 0 <= i < |rows| => Some(rows[i].accountID))
  }

  function GroupKeys(rows: seq<JoinTableRow>): seq<Option<int>> {
    seq(|rows|, i requires 0 <= i < |rows| => Some(rows[i].groupID))
  }

  /** The query each edge runs for a batch. */
  function ParentQuery(q: AccountQ, batch: seq<AccountRow>): (p: AccountQ)
    requires q.withParent.Some?
    ensures Height(p) < Height(q)
  {
    Where(q.withParent.value, IDIn(FirstSeen(ParentKeys(batch))))
  }

  function ChildrenQuery(q: AccountQ, batch: seq<AccountRow>): (p: AccountQ)
    requires q.withChildren.Some?
    ensures Height(p) < Height(q)
  {
    Where(KeyedChild(q.withChildren.value), ParentIn(IDs(batch)))
  }

  function AccountGroupsQuery(q: AccountQ, batch: seq<AccountRow>): (p: JoinQ)
    requires q.withAccountGroups.Some?
    ensures JoinHeight(p) < Height(q)
  {
    WhereJoin(KeyedJoin(q.withAccountGroups.value), AccountIn(IDs(batch)))
  }

  function ProxyQuery(q: AccountQ, batch: seq<AccountRow>): LeafQ
    requires q.withProxy.Some?
  {
    WhereLeaf(q.withProxy.value, LeafIDIn(FirstSeen(ProxyKeys(batch))))
  }

  function JoinAccountQuery(q: JoinQ, batch: seq<JoinTableRow>): (p: AccountQ)
    requires q.withAccount.Some?
    ensures Height(p) < JoinHeight(q)
  {
    Where(q.withAccount.value, IDIn(FirstSeen(AccountKeys(batch))))
  }

  function JoinGroupQuery(q: JoinQ, batch: seq<JoinTableRow>): LeafQ
    requires q.withGroup.Some?
  {
    WhereLeaf(q.withGroup.value, LeafIDIn(FirstSeen(GroupKeys(batch))))
  }

  /** What the builder returns for one scanned row of a batch. */
  function AccountNode(db: Snapshot, q: AccountQ, batch: seq<AccountRow>, row: AccountRow): AccountTree
    decreases Height(q), 0
  {
    AccountTree(
      row,
      LoadedOf(q),
      if q.withGroups.None? then [] else GroupsFor(GroupStream(db, q.withGroups.value, IDs(batch)), row.id),
      if q.withProxy.None? || row.proxyID.None? then None
      else FindLast(Leaves(db.proxies, ProxyQuery(q, batch)), LeafKey, row.proxyID.value),
      if q.withParent.None? || row.parentAccountID.None? then None
      else FindLast(Accounts(db, ParentQuery(q, batch)), TreeID, row.parentAccountID.value),
      if q.withChildren.None? then [] else ChildrenOf(row.id, Accounts(db, ChildrenQuery(q, batch))),
      if q.withAccountGroups.None? then [] else JoinsOf(row.id, JoinNodes(db, AccountGroupsQuery(q, batch))))
  }

  function Accounts(db: Snapshot, q: AccountQ): seq<AccountTree>
    decreases Height(q), 1
  {
    var rows := ScannedAccounts(db, q);
    seq(|rows|, i requires 0 <= i < |rows| => AccountNode(db, q, rows, rows[i]))
  }

  function JoinNode(db: Snapshot, q: JoinQ, batch: seq<JoinTableRow>, row: JoinTableRow): JoinTree
    decreases JoinHeight(q), 0
  {
    JoinTree(
      row,
      JoinLoadedOf(q),
      if q.withAccount.None? then None else FindLast(Accounts(db, JoinAccountQuery(q, batch)), TreeID, row.accountID),
      if q.withGroup.None? then None else FindLast(Leaves(db.groups, JoinGroupQuery(q, batch)), LeafKey, row.groupID))
  }

  function JoinNodes(db: Snapshot, q: JoinQ): seq<JoinTree>
    decreases JoinHeight(q), 1
  {
    var rows := ScannedJoins(db, q);
    seq(|rows|, i requires 0 <= i < |rows| => JoinNode(db, q, rows, rows[i]))
  }

  // ----- errors -----

  function OrElse(first: Option<Error>, second: Option<Error>): Option<Error> {
    if first.Some? then first else second
  }

  /** The error that running the query returns, if any: the edges are loaded in a fixed order, and
      an edge that has nothing to look up runs no query at all. */
  function AccountsError(db: Snapshot, q: AccountQ): Option<Error>
    decreases Height(q), 2
  {
    var error := Prepare(q.criteria.inters, q.fields, ACCOUNT_COLUMNS);
    if error.Some? then error
    else if ScannedAccounts(db, q) == [] then None
    else EdgesError(db, q, ScannedAccounts(db, q))
  }

  function EdgesError(db: Snapshot, q: AccountQ, batch: seq<AccountRow>): Option<Error>
    decreases Height(q), 1
  {
    OrElse(GroupsError(q),
    OrElse(ProxyError(q, batch),
    OrElse(ParentError(db, q, batch),
    OrElse(ChildrenError(db, q, batch),
           AccountGroupsError(db, q, batch)))))
  }

  function GroupsError(q: AccountQ): Option<Error> {
    if q.withGroups.None? then None else PrepareLeaf(q.withGroups.value)
  }

  function ProxyError(q: AccountQ, batch: seq<AccountRow>): Option<Error> {
    if q.withProxy.None? || FirstSeen(ProxyKeys(batch)) == [] then None else PrepareLeaf(q.withProxy.value)
  }

  function ParentError(db: Snapshot, q: AccountQ, batch: seq<AccountRow>): Option<Error>
    decreases Height(q), 0
  {
    if q.withParent.None? || FirstSeen(ParentKeys(batch)) == [] then None
    else AccountsError(db, ParentQuery(q, batch))
  }

  function ChildrenError(db: Snapshot, q: AccountQ, batch: seq<AccountRow>): Option<Error>
    decreases Height(q), 0
  {
    if q.withChildren.None? then None else AccountsError(db, ChildrenQuery(q, batch))
  }

  function AccountGroupsError(db: Snapshot, q: AccountQ, batch: seq<AccountRow>): Option<Error>
    decreases Height(q), 0
  {
    if q.withAccountGroups.None? then None else JoinsError(db, AccountGroupsQuery(q, batch))
  }

  function JoinsError(db: Snapshot, q: JoinQ): Option<Error>
    decreases JoinHeight(q), 2
  {
    var error := Prepare(q.criteria.inters, q.fields, JOIN_COLUMNS);
    if error.Some? then error
    else if ScannedJoins(db, q) == [] then None
    else JoinEdgesError(db, q, ScannedJoins(db, q))
  }

  function JoinEdgesError(db: Snapshot, q: JoinQ, batch: seq<JoinTableRow>): Option<Error>
    decreases JoinHeight(q), 1
  {
    OrElse(JoinAccountError(db, q, batch), JoinGroupError(q))
  }

  function JoinAccountError(db: Snapshot, q: JoinQ, batch: seq<JoinTableRow>): Option<Error>
    decreases JoinHeight(q), 0
  {
    if q.withAccount.None? then None else AccountsError(db, JoinAccountQuery(q, batch))
  }

  function JoinGroupError(q: JoinQ): Option<Error> {
    if q.withGroup.None? then None else PrepareLeaf(q.withGroup.value)
  }
}
