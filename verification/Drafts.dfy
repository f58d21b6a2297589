/** What a create builder does on its own: filling in defaults, checking, and building the node and
    the spec of the row to insert. */
module Drafts {
  import opened Wrappers
  import opened Schema
  import opened Cells

  datatype SaveError =
    | NilDefault(column: AccountColumn)
    | Missing(column: AccountColumn)
    | Invalid(column: AccountColumn)
    | Constraint(message: string)
    | Refused(message: string)
    | HookFailed(message: string)
    | UnexpectedValue

  /** What a mutation carries: the fields that were set and the ids of the edges that were added. */
  datatype Draft = Draft(
    fields: map<AccountColumn, Value>,
    groups: set<int>,
    proxy: Option<int>,
    parent: Option<int>,
    children: set<int>,
    usageLogs: set<int>)

  /** The package variables that the runtime package fills in. A default function that is missing
      here is nil; the others are plain values. */
  datatype Runtime = Runtime(
    functions: map<AccountColumn, Value>,
    values: AccountColumn -> Value,
    accepts: (AccountColumn, Value) -> bool,
    joinDefaults: map<JoinColumn, Value>)

  // ----- defaults -----

  const FUNCTION_DEFAULTS: seq<AccountColumn> := [CreatedAt, UpdatedAt, Credentials, Extra]

  const VALUE_DEFAULTS: seq<AccountColumn> := [
    Concurrency, Priority, Weight, RpmLimit, CircuitBreakerThreshold, CircuitBreakerCooldownSeconds,
    RateMultiplier, Status, AutoPauseOnExpired, Schedulable, QuotaDimension]

  /** What filling in defaults leaves, and the error that stopped it. */
  datatype Filled = Filled(fields: map<AccountColumn, Value>, error: Option<SaveError>)

  /** Fills in the columns whose default is a function, in turn, until one of them is nil. */
  function FillFunctions(runtime: Runtime, fields: map<AccountColumn, Value>, columns: seq<AccountColumn>): Filled
    decreases columns, fields
  {
    if columns == [] then Filled(fields, None)
    else if columns[0] in fields then FillFunctions(runtime, fields, columns[1..])
    else if columns[0] !in runtime.functions then Filled(fields, Some(NilDefault(columns[0])))
    else FillFunctions(runtime, fields[columns[0] := runtime.functions[columns[0]]], columns[1..])
  }

  function FillValues(runtime: Runtime, fields: map<AccountColumn, Value>,
                      columns: seq<AccountColumn>): map<AccountColumn, Value>
    decreases columns, fields
  {
    if columns == [] then fields
    else FillValues(runtime, if columns[0] in fields then fields else fields[columns[0] := runtime.values(columns[0])],
                    columns[1..])
  }

  /** The fields after defaults(), and the error it returns: the first nil default function that was
      needed. The columns after it are then left alone. */
  function Defaults(runtime: Runtime, d: Draft): Filled {
    var filled := FillFunctions(runtime, d.fields, FUNCTION_DEFAULTS);
    if filled.error.Some? then filled else Filled(FillValues(runtime, filled.fields, VALUE_DEFAULTS), None)
  }

  // ----- check -----

  datatype Check = Required(column: AccountColumn) | Validated(column: AccountColumn)

  const CHECKS: seq<Check> := [
    Required(CreatedAt), Required(UpdatedAt),
    Required(Name), Validated(Name),
    Required(Platform), Validated(Platform),
    Required(Type), Validated(Type),
    Required(Credentials), Required(Extra), Required(Concurrency), Required(Priority),
    Required(Weight), Validated(Weight),
    Required(RpmLimit), Validated(RpmLimit),
    Required(CircuitBreakerThreshold), Validated(CircuitBreakerThreshold),
    Required(CircuitBreakerCooldownSeconds), Validated(CircuitBreakerCooldownSeconds),
    Required(RateMultiplier),
    Required(Status), Validated(Status),
    Required(AutoPauseOnExpired), Required(Schedulable),
    Validated(SessionWindowStatus),
    Required(QuotaDimension), Validated(QuotaDimension)]

  predicate Passes(runtime: Runtime, fields: map<AccountColumn, Value>, check: Check) {
    match check
    case Required(c) => c in fields
    case Validated(c) => c in fields ==> runtime.accepts(c, fields[c])
  }

  function Complaint(check: Check): SaveError {
    match check
    case Required(c) => Missing(c)
    case Validated(c) => Invalid(c)
  }

  function FirstComplaint(runtime: Runtime, fields: map<AccountColumn, Value>, checks: seq<Check>): Option<SaveError>
    decreases checks, fields
  {
    if checks == [] then None
    else if !Passes(runtime, fields, checks[0]) then Some(Complaint(checks[0]))
    else FirstComplaint(runtime, fields, checks[1..])
  }

  /** The error of check(): that of the first check that fails. */
  function CheckError(runtime: Runtime, d: Draft): Option<SaveError> {
    FirstComplaint(runtime, d.fields, CHECKS)
  }

  lemma {:induction false} FirstComplaintAt(runtime: Runtime, fields: map<AccountColumn, Value>, checks: seq<Check>)
    returns (at: nat)
    ensures at <= |checks| && forall i | 0 <= i < at :: Passes(runtime, fields, checks[i])
    ensures FirstComplaint(runtime, fields, checks) == if at < |checks| then Some(Complaint(checks[at])) else None
    ensures at < |checks| ==> !Passes(runtime, fields, checks[at])
  {
    at := 0;
    if checks != [] && Passes(runtime, fields, checks[0]) {
      var rest := checks[1..];
      at := FirstComplaintAt(runtime, fields, rest);
      at := at + 1;
      assert forall i | 0 < i < |checks| :: checks[i] == rest[i - 1];
    }
  }

  // The checks are those that the schema asks for, in its order.

  lemma ChecksAreDue()
    ensures forall i | 0 <= i < |CHECKS| ::
      if CHECKS[i].Required? then Mandatory(CHECKS[i].column) else Constrained(CHECKS[i].column)
  {
  }

  lemma RequiredIsChecked(c: AccountColumn)
    requires Mandatory(c)
    ensures Required(c) in CHECKS
  {
  }

  lemma ConstraintIsChecked(c: AccountColumn)
    requires Constrained(c)
    ensures Validated(c) in CHECKS
  {
  }

  lemma FirstChecksInOrder()
    ensures forall i | 0 <= i < 14 :: SchemaOrder(CHECKS[i].column) <= SchemaOrder(CHECKS[i + 1].column)
  {
  }

  lemma LastChecksInOrder()
    ensures forall i | 14 <= i < |CHECKS| - 1 :: SchemaOrder(CHECKS[i].column) <= SchemaOrder(CHECKS[i + 1].column)
  {
  }

  lemma {:induction false} ChecksInOrder(i: nat, j: nat)
    requires i <= j < |CHECKS|
    ensures SchemaOrder(CHECKS[i].column) <= SchemaOrder(CHECKS[j].column)
  {
    if i < j {
      ChecksInOrder(i, j - 1);
      if j <= 14 { FirstChecksInOrder(); } else { LastChecksInOrder(); }
    }
  }

  /** What is wrong with a column of a draft, by the schema: it must be set and is not, or the validator that the
      schema gives it does not accept what it is set to. */
  function Fault(runtime: Runtime, fields: map<AccountColumn, Value>, c: AccountColumn): Option<SaveError> {
    if Mandatory(c) && c !in fields then Some(Missing(c))
    else if Constrained(c) && c in fields && !runtime.accepts(c, fields[c]) then Some(Invalid(c))
    else None
  }

  /** A check that fails names the first column, in the order of the schema, with which something is wrong. */
  lemma CheckNamesFirst(runtime: Runtime, d: Draft) returns (first: AccountColumn)
    requires CheckError(runtime, d).Some?
    ensures CheckError(runtime, d) == Fault(runtime, d.fields, first)
    ensures forall c | SchemaOrder(c) < SchemaOrder(first) :: Fault(runtime, d.fields, c).None?
  {
    var at := FirstComplaintAt(runtime, d.fields, CHECKS);
    first := CHECKS[at].column;
    ChecksAreDue();
    forall c | SchemaOrder(c) < SchemaOrder(first) ensures Fault(runtime, d.fields, c).None? {
      if Mandatory(c) { CheckedBefore(runtime, d.fields, Required(c), at); }
      if Constrained(c) { CheckedBefore(runtime, d.fields, Validated(c), at); }
    }
  }

  lemma CheckedBefore(runtime: Runtime, fields: map<AccountColumn, Value>, check: Check, at: nat)
    requires at < |CHECKS| && SchemaOrder(check.column) < SchemaOrder(CHECKS[at].column)
    requires if check.Required? then Mandatory(check.column) else Constrained(check.column)
    requires forall i | 0 <= i < at :: Passes(runtime, fields, CHECKS[i])
    ensures Passes(runtime, fields, check)
  {
    if check.Required? { RequiredIsChecked(check.column); } else { ConstraintIsChecked(check.column); }
    var j :| 0 <= j < |CHECKS| && CHECKS[j] == check;
    if at <= j { ChecksInOrder(at, j); }
  }

  /** Every column that must be set is set, and every validator accepts what there is for it to look at. */
  ghost predicate Storable(runtime: Runtime, fields: map<AccountColumn, Value>) {
    && (forall c | Mandatory(c) :: c in fields)
    && forall c | Constrained(c) && c in fields :: runtime.accepts(c, fields[c])
  }

  /** A draft passes its check exactly if the schema lets it be stored. */
  lemma CheckPasses(runtime: Runtime, d: Draft)
    ensures CheckError(runtime, d).None? <==> Storable(runtime, d.fields)
  {
    var at := FirstComplaintAt(runtime, d.fields, CHECKS);
    if at < |CHECKS| {
      ChecksAreDue();
    } else {
      forall c | Mandatory(c) ensures c in d.fields {
        RequiredIsChecked(c);
        assert Passes(runtime, d.fields, Required(c));
      }
      forall c | Constrained(c) && c in d.fields ensures runtime.accepts(c, d.fields[c]) {
        ConstraintIsChecked(c);
        assert Passes(runtime, d.fields, Validated(c));
      }
    }
  }

  // ----- what defaults fill in -----

  /** Default functions are called up to the first that is needed and nil, at position `stop`. */
  lemma {:induction false} FillFunctionsExactly(runtime: Runtime, fields: map<AccountColumn, Value>,
                                                columns: seq<AccountColumn>)
    returns (stop: nat)
    ensures stop <= |columns|
    ensures forall i | 0 <= i < stop :: columns[i] in fields || columns[i] in runtime.functions
    ensures stop < |columns| ==> columns[stop] !in runtime.functions
    ensures
      var r := FillFunctions(runtime, fields, columns);
      && r.error == (if stop < |columns| then Some(NilDefault(columns[stop])) else None)
      && (stop < |columns| ==> columns[stop] !in r.fields)
      && (forall c :: c in r.fields <==> c in fields || c in columns[..stop])
      && forall c | c in r.fields :: r.fields[c] == if c in fields then fields[c] else runtime.functions[c]
    decreases columns
  {
    if columns == [] {
      stop := 0;
    } else {
      var c, rest := columns[0], columns[1..];
      if c !in fields && c !in runtime.functions {
        stop := 0;
      } else {
        stop := FillFunctionsExactly(runtime, if c in fields then fields else fields[c := runtime.functions[c]], rest);
        stop := stop + 1;
        forall i | 0 <= i < stop ensures columns[i] in fields || columns[i] in runtime.functions {
          if i > 0 { assert rest[i - 1] == columns[i]; }
        }
        assert columns[..stop] == [c] + rest[..stop - 1];
      }
    }
  }

  lemma {:induction false} FillValuesExactly(runtime: Runtime, fields: map<AccountColumn, Value>,
                                             columns: seq<AccountColumn>)
    ensures
      var filled := FillValues(runtime, fields, columns);
      && (forall c :: c in filled <==> c in fields || c in columns)
      && (forall c | c in filled :: filled[c] == if c in fields then fields[c] else runtime.values(c))
    decreases columns
  {
    if columns == [] {
    } else {
      var c := columns[0];
      assert columns == [c] + columns[1..];
      FillValuesExactly(runtime, if c in fields then fields else fields[c := runtime.values(c)], columns[1..]);
    }
  }

  /** The columns that defaults() gets to, if the nil function that stops it is at position `stop`. */
  ghost predicate Defaulted(stop: nat, c: AccountColumn)
    requires stop <= |FUNCTION_DEFAULTS|
  {
    c in FUNCTION_DEFAULTS[..stop] || (stop == |FUNCTION_DEFAULTS| && c in VALUE_DEFAULTS)
  }

  /** Defaults keep what was set and give every column with a default its value, up to the first function
      that is needed and nil, which the error names; they touch no other column. */
  lemma DefaultsFill(runtime: Runtime, d: Draft) returns (stop: nat)
    ensures stop <= |FUNCTION_DEFAULTS|
    ensures forall i | 0 <= i < stop :: FUNCTION_DEFAULTS[i] in d.fields || FUNCTION_DEFAULTS[i] in runtime.functions
    ensures stop < |FUNCTION_DEFAULTS| ==> FUNCTION_DEFAULTS[stop] !in runtime.functions
    ensures
      var r := Defaults(runtime, d);
      && r.error == (if stop < |FUNCTION_DEFAULTS| then Some(NilDefault(FUNCTION_DEFAULTS[stop])) else None)
      && (stop < |FUNCTION_DEFAULTS| ==> FUNCTION_DEFAULTS[stop] !in r.fields)
      && (forall c :: c in r.fields <==> c in d.fields || Defaulted(stop, c))
      && forall c | c in r.fields :: r.fields[c] ==
           if c in d.fields then d.fields[c]
           else if c in FUNCTION_DEFAULTS[..stop] then runtime.functions[c]
           else runtime.values(c)
  {
    var n := |FUNCTION_DEFAULTS|;
    stop := FillFunctionsExactly(runtime, d.fields, FUNCTION_DEFAULTS);
    FillValuesExactly(runtime, FillFunctions(runtime, d.fields, FUNCTION_DEFAULTS).fields, VALUE_DEFAULTS);
    assert FUNCTION_DEFAULTS[..n] == FUNCTION_DEFAULTS;
  }

  lemma CallsAreListed(c: AccountColumn)
    ensures c in FUNCTION_DEFAULTS <==> DefaultsToCall(c)
  {
  }

  lemma ListedValuesAreDue()
    ensures forall i | 0 <= i < |VALUE_DEFAULTS| :: DefaultsToValue(VALUE_DEFAULTS[i])
  {
  }

  lemma ValuesAreListed(c: AccountColumn)
    requires DefaultsToValue(c)
    ensures c in VALUE_DEFAULTS
  {
  }

  lemma ColumnsWithDefault(c: AccountColumn)
    ensures c in FUNCTION_DEFAULTS <==> DefaultsToCall(c)
    ensures c in VALUE_DEFAULTS <==> DefaultsToValue(c)
  {
    CallsAreListed(c);
    ListedValuesAreDue();
    if DefaultsToValue(c) { ValuesAreListed(c); }
  }

  lemma CalledInOrder(i: nat, c: AccountColumn)
    requires i < |FUNCTION_DEFAULTS|
    ensures c in FUNCTION_DEFAULTS[..i] <==> DefaultsToCall(c) && SchemaOrder(c) < SchemaOrder(FUNCTION_DEFAULTS[i])
  {
    assert FUNCTION_DEFAULTS[..1] == [CreatedAt] && FUNCTION_DEFAULTS[..2] == [CreatedAt, UpdatedAt];
    assert FUNCTION_DEFAULTS[..3] == [CreatedAt, UpdatedAt, Credentials];
  }

  /** The same by the schema. If every default function that is needed is there, exactly the columns with a default
      are filled in. Otherwise the error names the first that is nil, in the order of the schema, and exactly the
      columns before it that default to a call are. */
  lemma DefaultsBySchema(runtime: Runtime, d: Draft)
    ensures
      var r := Defaults(runtime, d);
      && (forall c | c in d.fields :: c in r.fields && r.fields[c] == d.fields[c])
      && (forall c | c in r.fields && c !in d.fields ::
            || (DefaultsToCall(c) && c in runtime.functions && r.fields[c] == runtime.functions[c])
            || (DefaultsToValue(c) && r.fields[c] == runtime.values(c)))
      && (r.error.None? ==>
            (forall c :: c in r.fields <==> c in d.fields || DefaultsToCall(c) || DefaultsToValue(c)))
      && (r.error.Some? ==> exists nil ::
            && r.error == Some(NilDefault(nil))
            && DefaultsToCall(nil) && nil !in d.fields && nil !in runtime.functions
            && forall c :: c in r.fields <==>
                 c in d.fields || (DefaultsToCall(c) && SchemaOrder(c) < SchemaOrder(nil)))
  {
    var stop := DefaultsFill(runtime, d);
    forall c { ColumnsWithDefault(c); }
    if stop < |FUNCTION_DEFAULTS| {
      forall c { CalledInOrder(stop, c); }
    } else {
      assert FUNCTION_DEFAULTS[..stop] == FUNCTION_DEFAULTS;
    }
  }

  lemma MandatoryExactly(c: AccountColumn)
    ensures Mandatory(c) <==> DefaultsToCall(c) || DefaultsToValue(c) || c == Name || c == Platform || c == Type
  {
  }

  /** After the defaults only a name, a platform or a type can be missing. */
  lemma DefaultedPasses(runtime: Runtime, d: Draft)
    requires Defaults(runtime, d).error.None?
    ensures
      var filled := Defaults(runtime, d).fields;
      CheckError(runtime, d.(fields := filled)).None? <==>
        && Name in d.fields && Platform in d.fields && Type in d.fields
        && forall c | Constrained(c) && c in filled :: runtime.accepts(c, filled[c])
  {
    var filled := Defaults(runtime, d).fields;
    DefaultsBySchema(runtime, d);
    CheckPasses(runtime, d.(fields := filled));
    forall c { MandatoryExactly(c); }
    assert Mandatory(Name) && Mandatory(Platform) && Mandatory(Type);
  }

  /** A bulk save drops the error of defaults(), which does no harm: the column that it names is
      required, so the check fails as long as no hook sets that column. */
  lemma DroppedErrorResurfaces(runtime: Runtime, d: Draft, c: AccountColumn, edited: Draft)
    requires Defaults(runtime, d).error == Some(NilDefault(c)) && c !in edited.fields
    ensures CheckError(runtime, edited).Some?
  {
    var stop := DefaultsFill(runtime, d);
    assert FUNCTION_DEFAULTS[stop] == c;
    ColumnsWithDefault(c);
    MandatoryExactly(c);
    CheckPasses(runtime, edited);
  }

  // ----- the spec -----

  const CREATE_COLUMNS: seq<AccountColumn> := [
    CreatedAt, UpdatedAt, DeletedAt, Name, Notes, Platform, Type, Credentials, Extra,
    ProxyFallbackOriginID, Concurrency, LoadFactor, Priority, Weight, RpmLimit,
    CircuitBreakerThreshold, CircuitBreakerCooldownSeconds, RateMultiplier, Status, ErrorMessage,
    LastUsedAt, ExpiresAt, AutoPauseOnExpired, Schedulable, RateLimitedAt, RateLimitResetAt,
    OverloadUntil, TempUnschedulableUntil, TempUnschedulableReason, SessionWindowStart,
    SessionWindowEnd, SessionWindowStatus, QuotaDimension]

  datatype Edge =
    | GroupsEdge(ids: set<int>, joinFields: map<JoinColumn, Value>)
    | ProxyEdge(id: int)
    | ParentEdge(id: int)
    | ChildrenEdge(ids: set<int>)
    | UsageLogsEdge(ids: set<int>)

  /** The row to insert, without its id. */
  datatype Spec = Spec(fields: seq<(AccountColumn, Value)>, edges: seq<Edge>, onConflict: seq<string>)

  function SpecFields(fields: map<AccountColumn, Value>, columns: seq<AccountColumn>): seq<(AccountColumn, Value)>
    decreases columns, fields
  {
    if columns == [] then []
    else (if columns[0] in fields then [(columns[0], fields[columns[0]])] else []) + SpecFields(fields, columns[1..])
  }

  function GroupEdges(runtime: Runtime, d: Draft): seq<Edge> {
    if d.groups != {} then [GroupsEdge(d.groups, runtime.joinDefaults)] else []
  }

  function ProxyEdges(d: Draft): seq<Edge> { if d.proxy.Some? then [ProxyEdge(d.proxy.value)] else [] }

  function ParentEdges(d: Draft): seq<Edge> { if d.parent.Some? then [ParentEdge(d.parent.value)] else [] }

  function ChildEdges(d: Draft): seq<Edge> { if d.children != {} then [ChildrenEdge(d.children)] else [] }

  function UsageLogEdges(d: Draft): seq<Edge> { if d.usageLogs != {} then [UsageLogsEdge(d.usageLogs)] else [] }

  function SpecEdges(runtime: Runtime, d: Draft): seq<Edge> {
    GroupEdges(runtime, d) + ProxyEdges(d) + ParentEdges(d) + ChildEdges(d) + UsageLogEdges(d)
  }

  function SpecOf(runtime: Runtime, d: Draft, conflict: seq<string>): Spec {
    Spec(SpecFields(d.fields, CREATE_COLUMNS), SpecEdges(runtime, d), conflict)
  }

  function NodeFields(fields: map<AccountColumn, Value>, columns: seq<AccountColumn>): map<AccountColumn, Value> {
    map c | c in fields && c in columns :: fields[c]
  }

  /** The node that goes with a spec, whose id is not known yet. */
  function NodeOf(d: Draft): AccountRow {
    AccountRow(0, d.proxy, d.parent, NodeFields(d.fields, CREATE_COLUMNS))
  }

  // ----- what the database stores -----

  function FieldsOf(pairs: seq<(AccountColumn, Value)>): map<AccountColumn, Value> {
    if pairs == [] then map[] else FieldsOf(pairs[..|pairs| - 1])[pairs[|pairs| - 1].0 := pairs[|pairs| - 1].1]
  }

  function EdgeKey(edges: seq<Edge>, proxy: bool): Option<int> {
    if edges == [] then None
    else if proxy && edges[0].ProxyEdge? then Some(edges[0].id)
    else if !proxy && edges[0].ParentEdge? then Some(edges[0].id)
    else EdgeKey(edges[1..], proxy)
  }

  /** The row that an insert of this spec leaves in the table: a many-to-one edge becomes a key. */
  function RowOf(spec: Spec, id: int): AccountRow {
    AccountRow(id, EdgeKey(spec.edges, true), EdgeKey(spec.edges, false), FieldsOf(spec.fields))
  }

  lemma FieldsOfConcat(a: seq<(AccountColumn, Value)>, b: seq<(AccountColumn, Value)>)
    ensures FieldsOf(a + b) == FieldsOf(a) + FieldsOf(b)
  {
    if b == [] {
      assert a + b == a;
    } else {
      var n := |b| - 1;
      assert (a + b)[..|a + b| - 1] == a + b[..n];
      FieldsOfConcat(a, b[..n]);
    }
  }

  lemma NodeFieldsCons(fields: map<AccountColumn, Value>, c: AccountColumn, rest: seq<AccountColumn>)
    ensures NodeFields(fields, [c] + rest) ==
            if c in fields then map[c := fields[c]] + NodeFields(fields, rest) else NodeFields(fields, rest)
  {
  }

  lemma {:induction false} SpecFieldsAre(fields: map<AccountColumn, Value>, columns: seq<AccountColumn>)
    ensures FieldsOf(SpecFields(fields, columns)) == NodeFields(fields, columns)
  {
    if columns == [] {
    } else {
      var c, rest := columns[0], SpecFields(fields, columns[1..]);
      SpecFieldsAre(fields, columns[1..]);
      NodeFieldsCons(fields, c, columns[1..]);
      assert columns == [c] + columns[1..];
      if c in fields {
        FieldsOfConcat([(c, fields[c])], rest);
        assert FieldsOf([(c, fields[c])]) == map[c := fields[c]];
      } else {
        assert [] + rest == rest;
      }
    }
  }

  /** The node that a builder hands out is the row that its spec stores. */
  lemma NodeIsStored(runtime: Runtime, d: Draft, conflict: seq<string>, id: int)
    ensures RowOf(SpecOf(runtime, d, conflict), id) == NodeOf(d).(id := id)
  {
    SpecFieldsAre(d.fields, CREATE_COLUMNS);
    var g, p, q, c, u := GroupEdges(runtime, d), ProxyEdges(d), ParentEdges(d), ChildEdges(d), UsageLogEdges(d);
    forall proxy | proxy == true || proxy == false
      ensures EdgeKey(SpecEdges(runtime, d), proxy) == if proxy then d.proxy else d.parent
    {
      EdgeKeyConcat(g + p + q + c, u, proxy);
      EdgeKeyConcat(g + p + q, c, proxy);
      EdgeKeyConcat(g + p, q, proxy);
      EdgeKeyConcat(g, p, proxy);
    }
  }

  lemma {:induction false} EdgeKeyConcat(a: seq<Edge>, b: seq<Edge>, proxy: bool)
    ensures EdgeKey(a + b, proxy) == if EdgeKey(a, proxy).Some? then EdgeKey(a, proxy) else EdgeKey(b, proxy)
  {
    if a == [] {
      assert a + b == b;
    } else {
      assert (a + b)[0] == a[0] && (a + b)[1..] == a[1..] + b;
      EdgeKeyConcat(a[1..], b, proxy);
    }
  }

  // ----- what a draft becomes -----

  /** The types that createSpec declares for the values of a spec. */
  datatype FieldType = TypeTime | TypeString | TypeJSON | TypeInt | TypeInt64 | TypeFloat64 | TypeBool | TypeEnum

  function SpecType(c: AccountColumn): Option<FieldType> {
    match c
    case CreatedAt | UpdatedAt | DeletedAt | LastUsedAt | ExpiresAt | RateLimitedAt | RateLimitResetAt => Some(TypeTime)
    case OverloadUntil | TempUnschedulableUntil | SessionWindowStart | SessionWindowEnd => Some(TypeTime)
    case Name | Notes | Platform | Type | Status | ErrorMessage | TempUnschedulableReason => Some(TypeString)
    case SessionWindowStatus => Some(TypeString)
    case Credentials | Extra => Some(TypeJSON)
    case ProxyFallbackOriginID => Some(TypeInt64)
    case Concurrency | LoadFactor | Priority | Weight | RpmLimit => Some(TypeInt)
    case CircuitBreakerThreshold | CircuitBreakerCooldownSeconds => Some(TypeInt)
    case RateMultiplier => Some(TypeFloat64)
    case AutoPauseOnExpired | Schedulable => Some(TypeBool)
    case QuotaDimension => Some(TypeEnum)
    case ID | ProxyID | ParentAccountID | OtherColumn(_) => None
  }

  predicate OfType(t: FieldType, v: Value) {
    match t
    case TypeTime => v.Time?
    case TypeString | TypeEnum => v.Str?
    case TypeJSON => v.Json? && v.doc != ""
    case TypeInt | TypeInt64 => v.Int?
    case TypeFloat64 => v.Float?
    case TypeBool => v.Bool?
  }

  /** Values set through typed setters have the types that createSpec declares. */
  ghost predicate TypedDraft(d: Draft) {
    forall c | c in d.fields :: SpecType(c).Some? && OfType(SpecType(c).value, d.fields[c])
  }

  lemma TypedIsCreated(c: AccountColumn)
    requires SpecType(c).Some?
    ensures c in CREATE_COLUMNS
  {
  }

  /** Scanning expects just the type that createSpec declares. */
  lemma CreatedIsScannable(c: AccountColumn, v: Value)
    requires SpecType(c).Some?
    ensures OfType(SpecType(c).value, v) <==> Fits(AccountKind(c), v)
    ensures !c.ID? && !c.ProxyID? && !c.ParentAccountID?
  {
  }

  lemma FirstCreatedInOrder()
    ensures forall i | 0 <= i < 12 :: SchemaOrder(CREATE_COLUMNS[i]) < SchemaOrder(CREATE_COLUMNS[i + 1])
  {
  }

  lemma MiddleCreatedInOrder()
    ensures forall i | 12 <= i < 22 :: SchemaOrder(CREATE_COLUMNS[i]) < SchemaOrder(CREATE_COLUMNS[i + 1])
  {
  }

  lemma LaterCreatedInOrder()
    ensures forall i | 22 <= i < 27 :: SchemaOrder(CREATE_COLUMNS[i]) < SchemaOrder(CREATE_COLUMNS[i + 1])
  {
  }

  lemma LastCreatedInOrder()
    ensures forall i | 27 <= i < |CREATE_COLUMNS| - 1 ::
      SchemaOrder(CREATE_COLUMNS[i]) < SchemaOrder(CREATE_COLUMNS[i + 1])
  {
  }

  lemma {:induction false} CreatedInOrder(i: nat, j: nat)
    requires i < j < |CREATE_COLUMNS|
    ensures SchemaOrder(CREATE_COLUMNS[i]) < SchemaOrder(CREATE_COLUMNS[j])
  {
    if i + 1 < j { CreatedInOrder(i, j - 1); }
    if j <= 12 {
      FirstCreatedInOrder();
    } else if j <= 22 {
      MiddleCreatedInOrder();
    } else if j <= 27 {
      LaterCreatedInOrder();
    } else {
      LastCreatedInOrder();
    }
  }

  ghost predicate InOrder(columns: seq<AccountColumn>) {
    forall i, j | 0 <= i < j < |columns| :: SchemaOrder(columns[i]) < SchemaOrder(columns[j])
  }

  /** The pairs of a spec: those of the fields, for these columns, each once, in the order of the schema. */
  lemma {:induction false} SpecFieldsExactly(fields: map<AccountColumn, Value>, columns: seq<AccountColumn>)
    requires InOrder(columns)
    ensures
      var pairs := SpecFields(fields, columns);
      && (forall c, v :: (c, v) in pairs <==> c in columns && c in fields && fields[c] == v)
      && forall i, j | 0 <= i < j < |pairs| :: SchemaOrder(pairs[i].0) < SchemaOrder(pairs[j].0)
    decreases columns
  {
    if columns == [] {
    } else {
      var c, rest := columns[0], columns[1..];
      assert columns == [c] + rest;
      assert forall i | 0 <= i < |rest| :: rest[i] == columns[i + 1];
      SpecFieldsExactly(fields, rest);
      var pairs, tail := SpecFields(fields, columns), SpecFields(fields, rest);
      forall i | 0 <= i < |tail| ensures SchemaOrder(c) < SchemaOrder(tail[i].0) {
        assert (tail[i].0, tail[i].1) in tail;
      }
    }
  }

  /** Nothing of a draft is lost: its spec has every field that was set, with its value, once, and in the order of
      the schema, and the conflict clause; the row that is stored and the node that is handed out are the draft. */
  lemma CreatedIsDraft(runtime: Runtime, d: Draft, conflict: seq<string>, id: int)
    requires TypedDraft(d)
    ensures
      var spec := SpecOf(runtime, d, conflict);
      && (forall c, v :: (c, v) in spec.fields <==> c in d.fields && d.fields[c] == v)
      && (forall i, j | 0 <= i < j < |spec.fields| :: SchemaOrder(spec.fields[i].0) < SchemaOrder(spec.fields[j].0))
      && spec.onConflict == conflict
      && RowOf(spec, id) == AccountRow(id, d.proxy, d.parent, d.fields)
    ensures NodeOf(d) == AccountRow(0, d.proxy, d.parent, d.fields)
  {
    forall i, j | 0 <= i < j < |CREATE_COLUMNS| { CreatedInOrder(i, j); }
    SpecFieldsExactly(d.fields, CREATE_COLUMNS);
    forall c | c in d.fields ensures c in CREATE_COLUMNS { TypedIsCreated(c); }
    assert NodeFields(d.fields, CREATE_COLUMNS) == d.fields;
    NodeIsStored(runtime, d, conflict, id);
  }

  predicate Adds(runtime: Runtime, d: Draft, e: Edge) {
    match e
    case GroupsEdge(ids, fields) => ids != {} && ids == d.groups && fields == runtime.joinDefaults
    case ProxyEdge(k) => d.proxy == Some(k)
    case ParentEdge(k) => d.parent == Some(k)
    case ChildrenEdge(ids) => ids != {} && ids == d.children
    case UsageLogsEdge(ids) => ids != {} && ids == d.usageLogs
  }

  /** The edges of a spec: one for every kind of edge that was added to the draft, and the join rows of its groups
      take the defaults of the join table. */
  lemma SpecEdgesExactly(runtime: Runtime, d: Draft, e: Edge)
    ensures multiset(SpecEdges(runtime, d))[e] == if Adds(runtime, d, e) then 1 else 0
  {
    var g, p, q, c, u := GroupEdges(runtime, d), ProxyEdges(d), ParentEdges(d), ChildEdges(d), UsageLogEdges(d);
    CountConcat(g + p + q + c, u, e);
    CountConcat(g + p + q, c, e);
    CountConcat(g + p, q, e);
    CountConcat(g, p, e);
  }

  lemma CountConcat(a: seq<Edge>, b: seq<Edge>, e: Edge)
    ensures multiset(a + b)[e] == multiset(a)[e] + multiset(b)[e]
  {
  }

  /** Encoding and decoding: reading back the row that a spec stored, with a column list that covers
      it in any order, with repeats and unknown extras, never meets an unexpected type and rebuilds
      the draft and the node the builder handed out. */
  lemma CreatedReadsBack(runtime: Runtime, d: Draft, conflict: seq<string>, id: int, columns: seq<AccountColumn>,
                         values: seq<Cell>, s: AccountScan)
    requires TypedDraft(d) && s.row == ZERO_ACCOUNT
    requires ID in columns && ProxyID in columns && ParentAccountID in columns
    requires forall c | c in d.fields :: c in columns
    requires ScannedFrom(columns, RowOf(SpecOf(runtime, d, conflict), id), values)
    ensures forall i | 0 <= i < |columns| :: OfKind(AccountKind(columns[i]), values[i])
    ensures FirstMismatch(AccountKinds(columns), values) == |columns|
    ensures AssignAccountAll(s, columns, values).row == AccountRow(id, d.proxy, d.parent, d.fields)
    ensures AccountRow(id, d.proxy, d.parent, d.fields) == NodeOf(d).(id := id)
  {
    CreatedIsDraft(runtime, d, conflict, id);
    var row := NodeOf(d).(id := id);
    forall c | c in d.fields { CreatedIsScannable(c, d.fields[c]); }
    AssignAccountProjects(columns, row, values, s);
    ProjectCovering(columns, row);
  }
}
