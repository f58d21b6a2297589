/** Creating a row of the join table, which has a composite key and no id column. */
module JoinDrafts {
  import opened Wrappers
  import opened Schema
  import opened Cells

  /** What a mutation of the join table carries. Its two keys are edges as well as fields. */
  datatype JoinDraft = JoinDraft(account: Option<int>, group: Option<int>, priority: Option<int>,
                                 createdAt: Option<int>)

  datatype JoinSaveError = MissingField(column: JoinColumn) | MissingEdge(edge: string)

  /** Fills in the fields that have a default; the keys have none. */
  function JoinDefaults(priority: int, now: int, d: JoinDraft): JoinDraft {
    d.(priority := if d.priority.None? then Some(priority) else d.priority,
       createdAt := if d.createdAt.None? then Some(now) else d.createdAt)
  }

  function JoinCheck(d: JoinDraft): Option<JoinSaveError> {
    if d.account.None? then Some(MissingField(AccountIDColumn))
    else if d.group.None? then Some(MissingField(GroupIDColumn))
    else if d.priority.None? then Some(MissingField(JoinPriority))
    else if d.createdAt.None? then Some(MissingField(JoinCreatedAt))
    else None
  }

  datatype JoinEdge = AccountEdge(id: int) | GroupEdge(id: int)

  datatype JoinSpec = JoinSpec(fields: seq<(JoinColumn, Value)>, edges: seq<JoinEdge>)

  function JoinSpecOf(d: JoinDraft): JoinSpec {
    JoinSpec(
      (if d.priority.Some? then [(JoinPriority, Int(d.priority.value))] else []) +
      (if d.createdAt.Some? then [(JoinCreatedAt, Time(d.createdAt.value))] else []),
      (if d.account.Some? then [AccountEdge(d.account.value)] else []) +
      (if d.group.Some? then [GroupEdge(d.group.value)] else []))
  }

  function Or(o: Option<int>, other: int): int { if o.Some? then o.value else other }

  /** The node that createSpec hands out. */
  function JoinNodeOf(d: JoinDraft): JoinTableRow {
    JoinTableRow(Or(d.account, 0), Or(d.group, 0), Or(d.priority, 0), Or(d.createdAt, 0))
  }

  /** The row that the database stores for a spec, which must give every column, none of which is
      nullable, a value of its type. */
  function StoredJoin(spec: JoinSpec): Option<JoinTableRow> {
    match (JoinKeyOf(spec.edges, true), JoinKeyOf(spec.edges, false),
           FieldOf(spec.fields, JoinPriority), FieldOf(spec.fields, JoinCreatedAt))
    case (Some(account), Some(group), Some(Int(priority)), Some(Time(createdAt))) =>
      Some(JoinTableRow(account, group, priority, createdAt))
    case _ => None
  }

  function JoinKeyOf(edges: seq<JoinEdge>, account: bool): Option<int> {
    if edges == [] then None
    else if edges[0].AccountEdge? == account then Some(edges[0].id)
    else JoinKeyOf(edges[1..], account)
  }

  function FieldOf(fields: seq<(JoinColumn, Value)>, c: JoinColumn): Option<Value> {
    if fields == [] then None
    else if fields[0].0 == c then Some(fields[0].1)
    else FieldOf(fields[1..], c)
  }

  /** The check lets through exactly the drafts whose spec the table can store, and the stored row is
      the node that the builder hands out. */
  lemma CheckedIsStored(d: JoinDraft)
    ensures JoinCheck(d).None? <==> StoredJoin(JoinSpecOf(d)).Some?
    ensures JoinCheck(d).None? ==>
      var row := JoinNodeOf(d);
      && StoredJoin(JoinSpecOf(d)) == Some(row)
      && Some(row.accountID) == d.account && Some(row.groupID) == d.group
      && Some(row.priority) == d.priority && Some(row.createdAt) == d.createdAt
  {
    SpecEdgesGiveKeys(d);
    SpecFieldsGiveValues(d);
  }

  lemma SpecEdgesGiveKeys(d: JoinDraft)
    ensures JoinKeyOf(JoinSpecOf(d).edges, true) == d.account && JoinKeyOf(JoinSpecOf(d).edges, false) == d.group
  {
    var a := if d.account.Some? then [AccountEdge(d.account.value)] else [];
    var g := if d.group.Some? then [GroupEdge(d.group.value)] else [];
    if d.account.Some? {
      assert (a + g)[0] == a[0] && (a + g)[1..] == g;
    } else {
      assert a + g == g;
    }
    assert g != [] ==> g[1..] == [];
  }

  lemma SpecFieldsGiveValues(d: JoinDraft)
    ensures FieldOf(JoinSpecOf(d).fields, JoinPriority) ==
            if d.priority.Some? then Some(Int(d.priority.value)) else None
    ensures FieldOf(JoinSpecOf(d).fields, JoinCreatedAt) ==
            if d.createdAt.Some? then Some(Time(d.createdAt.value)) else None
  {
    var p := if d.priority.Some? then [(JoinPriority, Int(d.priority.value))] else [];
    var t := if d.createdAt.Some? then [(JoinCreatedAt, Time(d.createdAt.value))] else [];
    if d.priority.Some? {
      assert (p + t)[0] == p[0] && (p + t)[1..] == t;
    } else {
      assert p + t == t;
    }
    assert t != [] ==> t[1..] == [];
  }

  /** What a mutation of the join table holds for a column. */
  function Set(d: JoinDraft, c: JoinColumn): Option<int> {
    match c
    case AccountIDColumn => d.account
    case GroupIDColumn => d.group
    case JoinPriority => d.priority
    case JoinCreatedAt => d.createdAt
    case OtherJoinColumn(_) => None
  }

  /** Defaults keep what was set, give a missing priority and time their defaults, and touch no key. */
  lemma JoinDefaultsFill(priority: int, now: int, d: JoinDraft, c: JoinColumn)
    ensures
      var before, after := Set(d, c), Set(JoinDefaults(priority, now, d), c);
      after == if before.None? && c == JoinPriority then Some(priority)
               else if before.None? && c == JoinCreatedAt then Some(now)
               else before
  {
  }

  /** The error is that of the first column of the table that is missing, keys included. */
  lemma JoinCheckNamesFirst(d: JoinDraft) returns (at: nat)
    ensures at <= |JOIN_COLUMNS| && forall i | 0 <= i < at :: Set(d, JOIN_COLUMNS[i]).Some?
    ensures at < |JOIN_COLUMNS| ==> Set(d, JOIN_COLUMNS[at]).None?
    ensures JoinCheck(d) == if at < |JOIN_COLUMNS| then Some(MissingField(JOIN_COLUMNS[at])) else None
  {
    at := if d.account.None? then 0 else if d.group.None? then 1 else if d.priority.None? then 2
          else if d.createdAt.None? then 3 else 4;
  }

  /** A row can be created exactly if both keys are set, and it then has them and the priority and time that were set,
      or their defaults. */
  lemma JoinCreatesExactly(priority: int, now: int, d: JoinDraft)
    ensures
      var filled := JoinDefaults(priority, now, d);
      && (JoinCheck(filled).None? <==> d.account.Some? && d.group.Some?)
      && (d.account.Some? && d.group.Some? ==>
            StoredJoin(JoinSpecOf(filled)) ==
            Some(JoinTableRow(d.account.value, d.group.value, Or(d.priority, priority), Or(d.createdAt, now))))
  {
    CheckedIsStored(JoinDefaults(priority, now, d));
  }

  /** Encoding and decoding: for every draft that passes its check, reading the stored row back with a
      column list that covers it in any order, with repeats and unknown extras, never meets an
      unexpected type and rebuilds the node that the builder handed out. */
  lemma JoinReadsBack(d: JoinDraft, columns: seq<JoinColumn>, values: seq<Cell>, s: JoinScan)
    requires JoinCheck(d).None? && s.row == ZERO_JOIN
    requires AccountIDColumn in columns && GroupIDColumn in columns && JoinPriority in columns
    requires JoinCreatedAt in columns
    requires JoinScannedFrom(columns, StoredJoinRow(d), values)
    ensures forall i | 0 <= i < |columns| :: OfKind(JoinKind(columns[i]), values[i])
    ensures FirstMismatch(JoinKinds(columns), values) == |columns|
    ensures AssignJoinAll(s, columns, values).row == JoinNodeOf(d)
  {
    CheckedIsStored(d);
    AssignJoinProjects(columns, StoredJoinRow(d), values, s);
  }

  function StoredJoinRow(d: JoinDraft): JoinTableRow
    requires JoinCheck(d).None?
  {
    CheckedIsStored(d);
    StoredJoin(JoinSpecOf(d)).value
  }
}
