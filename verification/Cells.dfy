/** Scan destinations: what scanValues allocates for a column, what the driver writes into it, and
    what assignValues accepts from it. */
module Cells {
  import opened Wrappers
  import opened Schema

  datatype Cell =
    | NullInt64(valid: bool, int64: int)
    | NullString(valid: bool, str: string)
    | NullTime(valid: bool, time: int)
    | NullBool(valid: bool, flag: bool)
    | NullFloat64(valid: bool, float64: real)
    | RawBytes(doc: string)
    | UnknownType(value: Value)

  datatype Kind = IntKind | StringKind | TimeKind | BoolKind | FloatKind | BytesKind | UnknownKind

  function NewCell(kind: Kind): Cell {
    match kind
    case IntKind => NullInt64(false, 0)
    case StringKind => NullString(false, "")
    case TimeKind => NullTime(false, 0)
    case BoolKind => NullBool(false, false)
    case FloatKind => NullFloat64(false, 0.0)
    case BytesKind => RawBytes("")
    case UnknownKind => UnknownType(Null)
  }

  /** Whether a cell is of the type that a column of this kind expects. */
  predicate OfKind(kind: Kind, cell: Cell) {
    match kind
    case IntKind => cell.NullInt64?
    case StringKind => cell.NullString?
    case TimeKind => cell.NullTime?
    case BoolKind => cell.NullBool?
    case FloatKind => cell.NullFloat64?
    case BytesKind => cell.RawBytes?
    case UnknownKind => true
  }

  /** What the driver writes into a cell; a value that does not fit leaves it as it is. */
  function Fill(cell: Cell, value: Value): Cell {
    match (cell, value)
    case (NullInt64(_, _), Int(n)) => NullInt64(true, n)
    case (NullString(_, _), Str(s)) => NullString(true, s)
    case (NullTime(_, _), Time(t)) => NullTime(true, t)
    case (NullBool(_, _), Bool(b)) => NullBool(true, b)
    case (NullFloat64(_, _), Float(r)) => NullFloat64(true, r)
    case (RawBytes(_), Json(doc)) => RawBytes(doc)
    case (UnknownType(_), v) => UnknownType(v)
    case _ => cell
  }

  /** Whether a stored value fits the kind of its column. An absent value stands for NULL. */
  predicate Fits(kind: Kind, value: Value) {
    match kind
    case IntKind => value.Int?
    case StringKind => value.Str?
    case TimeKind => value.Time?
    case BoolKind => value.Bool?
    case FloatKind => value.Float?
    case BytesKind => value.Json? && value.doc != ""
    case UnknownKind => false
  }

  /** The value that assigning from a cell sets, if it sets one. */
  function Held(cell: Cell): Option<Value> {
    match cell
    case NullInt64(valid, n) => if valid then Some(Int(n)) else None
    case NullString(valid, s) => if valid then Some(Str(s)) else None
    case NullTime(valid, t) => if valid then Some(Time(t)) else None
    case NullBool(valid, b) => if valid then Some(Bool(b)) else None
    case NullFloat64(valid, r) => if valid then Some(Float(r)) else None
    case RawBytes(doc) => if doc != "" then Some(Json(doc)) else None
    case UnknownType(_) => None
  }

  /** The first position whose cell is not of the type its column expects. */
  function FirstMismatch(kinds: seq<Kind>, values: seq<Cell>): (at: nat)
    requires |kinds| <= |values|
    ensures at <= |kinds|
    ensures at < |kinds| ==> !OfKind(kinds[at], values[at])
    ensures forall i | 0 <= i < at :: OfKind(kinds[i], values[i])
  {
    if kinds == [] then 0
    else
      var before := FirstMismatch(kinds[..|kinds| - 1], values);
      if before < |kinds| - 1 || !OfKind(kinds[|kinds| - 1], values[|kinds| - 1]) then before
      else |kinds|
  }

  // ----- accounts -----

  function AccountKind(c: AccountColumn): Kind {
    match c
    case Credentials => BytesKind
    case Extra => BytesKind
    case AutoPauseOnExpired => BoolKind
    case Schedulable => BoolKind
    case RateMultiplier => FloatKind
    case ID => IntKind
    case ProxyID => IntKind
    case ProxyFallbackOriginID => IntKind
    case Concurrency => IntKind
    case LoadFactor => IntKind
    case Priority => IntKind
    case Weight => IntKind
    case RpmLimit => IntKind
    case CircuitBreakerThreshold => IntKind
    case CircuitBreakerCooldownSeconds => IntKind
    case ParentAccountID => IntKind
    case Name => StringKind
    case Notes => StringKind
    case Platform => StringKind
    case Type => StringKind
    case Status => StringKind
    case ErrorMessage => StringKind
    case TempUnschedulableReason => StringKind
    case SessionWindowStatus => StringKind
    case QuotaDimension => StringKind
    case OtherColumn(_) => UnknownKind
    case CreatedAt => TimeKind
    case UpdatedAt => TimeKind
    case DeletedAt => TimeKind
    case LastUsedAt => TimeKind
    case ExpiresAt => TimeKind
    case RateLimitedAt => TimeKind
    case RateLimitResetAt => TimeKind
    case OverloadUntil => TimeKind
    case TempUnschedulableUntil => TimeKind
    case SessionWindowStart => TimeKind
    case SessionWindowEnd => TimeKind
  }

  function AccountKinds(columns: seq<AccountColumn>): seq<Kind> {
    seq(|columns|, i requires 0 <= i < |columns| => AccountKind(columns[i]))
  }

  /** The attributes of a row hold values of the kind their column has. */
  ghost predicate WellTyped(row: AccountRow) {
    forall c | c in row.attrs ::
      c != ID && c != ProxyID && c != ParentAccountID && Fits(AccountKind(c), row.attrs[c])
  }

  ghost predicate TypedSnapshot(db: Snapshot) {
    forall r | r in db.accounts :: WellTyped(r)
  }

  function KeyValue(key: Option<int>): Value { if key.None? then Null else Int(key.value) }

  function AccountValue(row: AccountRow, c: AccountColumn): Value {
    if c.ID? then Int(row.id)
    else if c.ProxyID? then KeyValue(row.proxyID)
    else if c.ParentAccountID? then KeyValue(row.parentAccountID)
    else if c in row.attrs then row.attrs[c]
    else Null
  }

  /** The fields of an account while it is being assigned, with the dynamically selected values. */
  datatype AccountScan = AccountScan(row: AccountRow, selected: map<AccountColumn, Cell>)

  const ZERO_ACCOUNT := AccountRow(0, None, None, map[])

  function AssignAccount(s: AccountScan, c: AccountColumn, v: Cell): AccountScan
    requires OfKind(AccountKind(c), v)
  {
    if c.ID? then s.(row := s.row.(id := v.int64))
    else if c.ProxyID? then if v.valid then s.(row := s.row.(proxyID := Some(v.int64))) else s
    else if c.ParentAccountID? then if v.valid then s.(row := s.row.(parentAccountID := Some(v.int64))) else s
    else if c.OtherColumn? then s.(selected := s.selected[c := v])
    else if Held(v).Some? then s.(row := s.row.(attrs := s.row.attrs[c := Held(v).value]))
    else s
  }

  /** Assigning a list of columns in turn. */
  function AssignAccountAll(s: AccountScan, columns: seq<AccountColumn>, values: seq<Cell>): AccountScan
    requires |columns| <= |values|
    requires forall i | 0 <= i < |columns| :: OfKind(AccountKind(columns[i]), values[i])
  {
    if columns == [] then s
    else
      var n := |columns| - 1;
      AssignAccount(AssignAccountAll(s, columns[..n], values), columns[n], values[n])
  }

  /** The cells a scan hands over for one row. */
  ghost predicate ScannedFrom(columns: seq<AccountColumn>, row: AccountRow, values: seq<Cell>) {
    && |values| == |columns|
    && forall i | 0 <= i < |columns| ::
         values[i] == Fill(NewCell(AccountKind(columns[i])), AccountValue(row, columns[i]))
  }

  lemma FillAccount(row: AccountRow, c: AccountColumn)
    requires WellTyped(row)
    ensures
      var cell := Fill(NewCell(AccountKind(c)), AccountValue(row, c));
      OfKind(AccountKind(c), cell) &&
      (c.OtherColumn? || Held(cell) == if AccountValue(row, c) == Null then None else Some(AccountValue(row, c)))
  {
  }

  lemma {:induction false} AssignAccountTail(s: AccountScan, columns: seq<AccountColumn>, a: seq<Cell>, b: seq<Cell>)
    requires |columns| <= |a| && |columns| <= |b|
    requires forall i | 0 <= i < |columns| :: a[i] == b[i] && OfKind(AccountKind(columns[i]), a[i])
    ensures AssignAccountAll(s, columns, a) == AssignAccountAll(s, columns, b)
  {
    if columns == [] {
    } else {
      AssignAccountTail(s, columns[..|columns| - 1], a, b);
    }
  }

  lemma ProjectMore(columns: seq<AccountColumn>, c: AccountColumn, row: AccountRow)
    requires WellTyped(row)
    ensures
      var before, after := ProjectAccount(columns, row), ProjectAccount(columns + [c], row);
      && after.id == (if c.ID? then row.id else before.id)
      && after.proxyID == (if c.ProxyID? then row.proxyID else before.proxyID)
      && after.parentAccountID == (if c.ParentAccountID? then row.parentAccountID else before.parentAccountID)
      && after.attrs == (if c in row.attrs then before.attrs[c := row.attrs[c]] else before.attrs)
  {
  }

  lemma ProjectStep(columns: seq<AccountColumn>, c: AccountColumn, row: AccountRow, s: AccountScan)
    requires WellTyped(row) && s.row == ProjectAccount(columns, row)
    requires OfKind(AccountKind(c), Fill(NewCell(AccountKind(c)), AccountValue(row, c)))
    ensures AssignAccount(s, c, Fill(NewCell(AccountKind(c)), AccountValue(row, c))).row ==
            ProjectAccount(columns + [c], row)
  {
    ProjectMore(columns, c, row);
    FillAccount(row, c);
  }

  /** Scanning the columns of a stored row, in any order, with repeats and unknown extras, never
      meets an unexpected type and rebuilds the selected part of the row. */
  lemma {:induction false} AssignAccountProjects(columns: seq<AccountColumn>, row: AccountRow, values: seq<Cell>,
                                                 s: AccountScan)
    requires WellTyped(row) && s.row == ZERO_ACCOUNT
    requires ScannedFrom(columns, row, values)
    ensures forall i | 0 <= i < |columns| :: OfKind(AccountKind(columns[i]), values[i])
    ensures FirstMismatch(AccountKinds(columns), values) == |columns|
    ensures AssignAccountAll(s, columns, values).row == ProjectAccount(columns, row)
  {
    forall i | 0 <= i < |columns| ensures OfKind(AccountKind(columns[i]), values[i]) {
      FillAccount(row, columns[i]);
    }
    if columns == [] {
      assert ProjectAccount(columns, row).attrs == map[];
    } else {
      var n := |columns| - 1;
      AssignAccountTail(s, columns[..n], values[..n], values);
      AssignAccountProjects(columns[..n], row, values[..n], s);
      ProjectStep(columns[..n], columns[n], row, AssignAccountAll(s, columns[..n], values));
      assert columns[..n] + [columns[n]] == columns;
    }
  }

  /** The last position of a column. */
  function LastAt<C(==)>(columns: seq<C>, c: C): (at: nat)
    requires c in columns
    ensures at < |columns| && columns[at] == c && forall i | at < i < |columns| :: columns[i] != c
  {
    var n := |columns| - 1;
    if columns[n] == c then n else LastAt(columns[..n], c)
  }

  lemma LastBefore<C>(columns: seq<C>, c: C)
    requires columns != []
    ensures
      var n := |columns| - 1;
      && (c in columns <==> c == columns[n] || c in columns[..n])
      && (c in columns ==> LastAt(columns, c) == if c == columns[n] then n else LastAt(columns[..n], c))
  {
    assert columns == columns[..|columns| - 1] + [columns[|columns| - 1]];
  }

  /** The cell of a column that the schema does not know is kept by name, the last if there are several; no other
      cell is. */
  lemma {:induction false} UnknownIsKept(s: AccountScan, columns: seq<AccountColumn>, values: seq<Cell>,
                                         c: AccountColumn)
    requires |columns| <= |values| && forall i | 0 <= i < |columns| :: OfKind(AccountKind(columns[i]), values[i])
    ensures
      var kept := AssignAccountAll(s, columns, values).selected;
      if c.OtherColumn? && c in columns then c in kept && kept[c] == values[LastAt(columns, c)]
      else (c in kept <==> c in s.selected) && (c in kept ==> kept[c] == s.selected[c])
  {
    if columns == [] {
    } else {
      var n := |columns| - 1;
      LastBefore(columns, c);
      UnknownIsKept(s, columns[..n], values, c);
      UnknownStep(AssignAccountAll(s, columns[..n], values), columns[n], values[n], c);
    }
  }

  lemma UnknownStep(s: AccountScan, column: AccountColumn, v: Cell, c: AccountColumn)
    requires OfKind(AccountKind(column), v)
    ensures
      var kept := AssignAccount(s, column, v).selected;
      if c.OtherColumn? && c == column then c in kept && kept[c] == v
      else (c in kept <==> c in s.selected) && (c in kept ==> kept[c] == s.selected[c])
  {
  }

  // ----- the join table -----

  function JoinKind(c: JoinColumn): Kind {
    match c
    case AccountIDColumn => IntKind
    case GroupIDColumn => IntKind
    case JoinPriority => IntKind
    case JoinCreatedAt => TimeKind
    case OtherJoinColumn(_) => UnknownKind
  }

  function JoinKinds(columns: seq<JoinColumn>): seq<Kind> {
    seq(|columns|, i requires 0 <= i < |columns| => JoinKind(columns[i]))
  }

  function JoinValue(row: JoinTableRow, c: JoinColumn): Value {
    match c
    case AccountIDColumn => Int(row.accountID)
    case GroupIDColumn => Int(row.groupID)
    case JoinPriority => Int(row.priority)
    case JoinCreatedAt => Time(row.createdAt)
    case OtherJoinColumn(_) => Null
  }

  datatype JoinScan = JoinScan(row: JoinTableRow, selected: map<JoinColumn, Cell>)

  const ZERO_JOIN := JoinTableRow(0, 0, 0, 0)

  function AssignJoin(s: JoinScan, c: JoinColumn, v: Cell): JoinScan
    requires OfKind(JoinKind(c), v)
  {
    match c
    case AccountIDColumn => if v.valid then s.(row := s.row.(accountID := v.int64)) else s
    case GroupIDColumn => if v.valid then s.(row := s.row.(groupID := v.int64)) else s
    case JoinPriority => if v.valid then s.(row := s.row.(priority := v.int64)) else s
    case JoinCreatedAt => if v.valid then s.(row := s.row.(createdAt := v.time)) else s
    case OtherJoinColumn(_) => s.(selected := s.selected[c := v])
  }

  function AssignJoinAll(s: JoinScan, columns: seq<JoinColumn>, values: seq<Cell>): JoinScan
    requires |columns| <= |values|
    requires forall i | 0 <= i < |columns| :: OfKind(JoinKind(columns[i]), values[i])
  {
    if columns == [] then s
    else
      var n := |columns| - 1;
      AssignJoin(AssignJoinAll(s, columns[..n], values), columns[n], values[n])
  }

  ghost predicate JoinScannedFrom(columns: seq<JoinColumn>, row: JoinTableRow, values: seq<Cell>) {
    && |values| == |columns|
    && forall i | 0 <= i < |columns| ::
         values[i] == Fill(NewCell(JoinKind(columns[i])), JoinValue(row, columns[i]))
  }

  lemma {:induction false} AssignJoinTail(s: JoinScan, columns: seq<JoinColumn>, a: seq<Cell>, b: seq<Cell>)
    requires |columns| <= |a| && |columns| <= |b|
    requires forall i | 0 <= i < |columns| :: a[i] == b[i] && OfKind(JoinKind(columns[i]), a[i])
    ensures AssignJoinAll(s, columns, a) == AssignJoinAll(s, columns, b)
  {
    if columns == [] {
    } else {
      AssignJoinTail(s, columns[..|columns| - 1], a, b);
    }
  }

  lemma {:induction false} UnknownJoinIsKept(s: JoinScan, columns: seq<JoinColumn>, values: seq<Cell>, c: JoinColumn)
    requires |columns| <= |values| && forall i | 0 <= i < |columns| :: OfKind(JoinKind(columns[i]), values[i])
    ensures
      var kept := AssignJoinAll(s, columns, values).selected;
      if c.OtherJoinColumn? && c in columns then c in kept && kept[c] == values[LastAt(columns, c)]
      else (c in kept <==> c in s.selected) && (c in kept ==> kept[c] == s.selected[c])
  {
    if columns == [] {
    } else {
      var n := |columns| - 1;
      LastBefore(columns, c);
      UnknownJoinIsKept(s, columns[..n], values, c);
      UnknownJoinStep(AssignJoinAll(s, columns[..n], values), columns[n], values[n], c);
    }
  }

  lemma UnknownJoinStep(s: JoinScan, column: JoinColumn, v: Cell, c: JoinColumn)
    requires OfKind(JoinKind(column), v)
    ensures
      var kept := AssignJoin(s, column, v).selected;
      if c.OtherJoinColumn? && c == column then c in kept && kept[c] == v
      else (c in kept <==> c in s.selected) && (c in kept ==> kept[c] == s.selected[c])
  {
  }

  lemma ProjectJoinStep(columns: seq<JoinColumn>, c: JoinColumn, row: JoinTableRow, s: JoinScan)
    requires s.row == ProjectJoin(columns, row)
    ensures OfKind(JoinKind(c), Fill(NewCell(JoinKind(c)), JoinValue(row, c)))
    ensures AssignJoin(s, c, Fill(NewCell(JoinKind(c)), JoinValue(row, c))).row == ProjectJoin(columns + [c], row)
  {
  }

  /** The same round trip for the join table, whose columns are never null: a column list in any
      order, with repeats and unknown extras, rebuilds the selected part of the row. */
  lemma {:induction false} AssignJoinProjects(columns: seq<JoinColumn>, row: JoinTableRow, values: seq<Cell>,
                                              s: JoinScan)
    requires s.row == ZERO_JOIN
    requires JoinScannedFrom(columns, row, values)
    ensures forall i | 0 <= i < |columns| :: OfKind(JoinKind(columns[i]), values[i])
    ensures FirstMismatch(JoinKinds(columns), values) == |columns|
    ensures AssignJoinAll(s, columns, values).row == ProjectJoin(columns, row)
  {
    forall i | 0 <= i < |columns| ensures OfKind(JoinKind(columns[i]), values[i]) {
      ProjectJoinStep([], columns[i], row, JoinScan(ProjectJoin([], row), map[]));
    }
    if columns == [] {
    } else {
      var n := |columns| - 1;
      AssignJoinTail(s, columns[..n], values[..n], values);
      AssignJoinProjects(columns[..n], row, values[..n], s);
      ProjectJoinStep(columns[..n], columns[n], row, AssignJoinAll(s, columns[..n], values));
      assert columns[..n] + [columns[n]] == columns;
    }
  }
}
