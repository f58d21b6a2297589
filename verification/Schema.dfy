/** Columns, rows and database snapshots of the tables behind accounts and their edges. */
module Schema {
  import opened Wrappers
  import opened Relational

  /** A column value. Times and JSON documents are opaque. */
  datatype Value =
    | Null
    | Int(n: int)
    | Str(s: string)
    | Time(t: int)
    | Bool(b: bool)
    | Float(r: real)
    | Json(doc: string)

  datatype AccountColumn =
    | ID
    | CreatedAt
    | UpdatedAt
    | DeletedAt
    | Name
    | Notes
    | Platform
    | Type
    | Credentials
    | Extra
    | ProxyID
    | ProxyFallbackOriginID
    | Concurrency
    | LoadFactor
    | Priority
    | Weight
    | RpmLimit
    | CircuitBreakerThreshold
    | CircuitBreakerCooldownSeconds
    | RateMultiplier
    | Status
    | ErrorMessage
    | LastUsedAt
    | ExpiresAt
    | AutoPauseOnExpired
    | Schedulable
    | RateLimitedAt
    | RateLimitResetAt
    | OverloadUntil
    | TempUnschedulableUntil
    | TempUnschedulableReason
    | SessionWindowStart
    | SessionWindowEnd
    | SessionWindowStatus
    | ParentAccountID
    | QuotaDimension
    | OtherColumn(name: string)

  /** The columns that the schema lets be null. */
  predicate Nullable(c: AccountColumn) {
    match c
    case DeletedAt | Notes | ProxyID | ProxyFallbackOriginID | LoadFactor | ErrorMessage | LastUsedAt => true
    case ExpiresAt | RateLimitedAt | RateLimitResetAt | OverloadUntil => true
    case TempUnschedulableUntil | TempUnschedulableReason => true
    case SessionWindowStart | SessionWindowEnd | SessionWindowStatus | ParentAccountID => true
    case _ => false
  }

  /** The columns for which the schema demands a length, a range or one of some values. */
  predicate Constrained(c: AccountColumn) {
    match c
    case Name | Platform | Type | Status | SessionWindowStatus => true
    case Weight | RpmLimit | CircuitBreakerThreshold | CircuitBreakerCooldownSeconds => true
    case QuotaDimension => true
    case _ => false
  }

  /** The columns for which the schema gives a default: what a function returns, or a value. */
  predicate DefaultsToCall(c: AccountColumn) {
    match c
    case CreatedAt | UpdatedAt | Credentials | Extra => true
    case _ => false
  }

  predicate DefaultsToValue(c: AccountColumn) {
    match c
    case Concurrency | Priority | Weight | RpmLimit => true
    case CircuitBreakerThreshold | CircuitBreakerCooldownSeconds | RateMultiplier => true
    case Status | AutoPauseOnExpired | Schedulable | QuotaDimension => true
    case _ => false
  }

  /** The position of a column in the schema. */
  function SchemaOrder(c: AccountColumn): nat {
    match c
    case ID => 0
    case CreatedAt => 1
    case UpdatedAt => 2
    case DeletedAt => 3
    case Name => 4
    case Notes => 5
    case Platform => 6
    case Type => 7
    case Credentials => 8
    case Extra => 9
    case ProxyID => 10
    case ProxyFallbackOriginID => 11
    case Concurrency => 12
    case LoadFactor => 13
    case Priority => 14
    case Weight => 15
    case RpmLimit => 16
    case CircuitBreakerThreshold => 17
    case CircuitBreakerCooldownSeconds => 18
    case RateMultiplier => 19
    case Status => 20
    case ErrorMessage => 21
    case LastUsedAt => 22
    case ExpiresAt => 23
    case AutoPauseOnExpired => 24
    case Schedulable => 25
    case RateLimitedAt => 26
    case RateLimitResetAt => 27
    case OverloadUntil => 28
    case TempUnschedulableUntil => 29
    case TempUnschedulableReason => 30
    case SessionWindowStart => 31
    case SessionWindowEnd => 32
    case SessionWindowStatus => 33
    case ParentAccountID => 34
    case QuotaDimension => 35
    case OtherColumn(_) => 36
  }

  /** The columns that every row must have a value for. */
  predicate Mandatory(c: AccountColumn) { !c.ID? && !c.OtherColumn? && !Nullable(c) }

  const ACCOUNT_COLUMNS: seq<AccountColumn> := [
    ID, CreatedAt, UpdatedAt, DeletedAt, Name, Notes, Platform, Type, Credentials, Extra, ProxyID,
    ProxyFallbackOriginID, Concurrency, LoadFactor, Priority, Weight, RpmLimit,
    CircuitBreakerThreshold, CircuitBreakerCooldownSeconds, RateMultiplier, Status, ErrorMessage,
    LastUsedAt, ExpiresAt, AutoPauseOnExpired, Schedulable, RateLimitedAt, RateLimitResetAt,
    OverloadUntil, TempUnschedulableUntil, TempUnschedulableReason, SessionWindowStart,
    SessionWindowEnd, SessionWindowStatus, ParentAccountID, QuotaDimension]

  // The list has every column of the schema, in its order, and nothing else.

  lemma KnownColumns(c: AccountColumn)
    requires !c.OtherColumn?
    ensures c in ACCOUNT_COLUMNS
  {
  }

  lemma FirstColumnsInOrder()
    ensures |ACCOUNT_COLUMNS| == 36 && forall i | 0 <= i < 18 :: SchemaOrder(ACCOUNT_COLUMNS[i]) == i
  {
  }

  lemma MiddleColumnsInOrder()
    ensures |ACCOUNT_COLUMNS| == 36 && forall i | 18 <= i < 27 :: SchemaOrder(ACCOUNT_COLUMNS[i]) == i
  {
  }

  lemma LastColumnsInOrder()
    ensures |ACCOUNT_COLUMNS| == 36 && forall i | 27 <= i < 36 :: SchemaOrder(ACCOUNT_COLUMNS[i]) == i
  {
  }

  lemma ColumnsInOrder(i: nat)
    requires i < |ACCOUNT_COLUMNS|
    ensures SchemaOrder(ACCOUNT_COLUMNS[i]) == i
  {
    FirstColumnsInOrder();
    MiddleColumnsInOrder();
    LastColumnsInOrder();
  }

  datatype JoinColumn = AccountIDColumn | GroupIDColumn | JoinPriority | JoinCreatedAt | OtherJoinColumn(name: string)

  const JOIN_COLUMNS: seq<JoinColumn> := [AccountIDColumn, GroupIDColumn, JoinPriority, JoinCreatedAt]

  lemma KnownJoinColumns(c: JoinColumn)
    ensures c in JOIN_COLUMNS <==> !c.OtherJoinColumn?
  {
  }

  /** The keys that the loaders read, and every other column by name. */
  datatype AccountRow = AccountRow(id: int, proxyID: Option<int>, parentAccountID: Option<int>,
                                   attrs: map<AccountColumn, Value>)

  /** A row of the join table, whose primary key is the pair of its foreign keys. */
  datatype JoinTableRow = JoinTableRow(accountID: int, groupID: int, priority: int, createdAt: int)

  /** A row of a table whose own edges are not part of the model: groups and proxies. */
  datatype LeafRow = LeafRow(id: int, attrs: map<string, Value>)

  datatype Snapshot = Snapshot(
    accounts: seq<AccountRow>,
    groups: seq<LeafRow>,
    proxies: seq<LeafRow>,
    accountGroups: seq<JoinTableRow>)

  function AccountKey(r: AccountRow): int { r.id }

  function LeafKey(r: LeafRow): int { r.id }

  function JoinPair(r: JoinTableRow): (int, int) { (r.accountID, r.groupID) }

  /** Primary keys are unique. Foreign keys may dangle. */
  ghost predicate ValidSnapshot(db: Snapshot) {
    && UniqueBy(AccountKey, db.accounts)
    && UniqueBy(LeafKey, db.groups)
    && UniqueBy(LeafKey, db.proxies)
    && UniqueBy(JoinPair, db.accountGroups)
  }

  /** Adds a column to a selection that does not have it yet. */
  function AddColumnOnce<C(==)>(columns: seq<C>, c: C): seq<C> {
    if c in columns then columns else columns + [c]
  }

  /** The part of a row that a selection of columns brings back; the rest stays zero. */
  function ProjectAccount(columns: seq<AccountColumn>, row: AccountRow): AccountRow {
    AccountRow(
      if ID in columns then row.id else 0,
      if ProxyID in columns then row.proxyID else None,
      if ParentAccountID in columns then row.parentAccountID else None,
      map c | c in row.attrs && c in columns :: row.attrs[c])
  }

  /** A selection that covers a row brings back all of it. */
  lemma ProjectCovering(columns: seq<AccountColumn>, row: AccountRow)
    requires ID in columns && ProxyID in columns && ParentAccountID in columns
    requires forall c | c in row.attrs :: c in columns
    ensures ProjectAccount(columns, row) == row
  {
    assert ProjectAccount(columns, row).attrs == row.attrs;
  }

  function ProjectJoin(columns: seq<JoinColumn>, row: JoinTableRow): JoinTableRow {
    JoinTableRow(
      if AccountIDColumn in columns then row.accountID else 0,
      if GroupIDColumn in columns then row.groupID else 0,
      if JoinPriority in columns then row.priority else 0,
      if JoinCreatedAt in columns then row.createdAt else 0)
  }

  function ProjectLeaf(columns: seq<string>, row: LeafRow): LeafRow {
    LeafRow(if "id" in columns then row.id else 0, map c | c in row.attrs && c in columns :: row.attrs[c])
  }
}
