/** Saving a single builder: the hooks around one check and one insert, and where this differs from the same
    builder in a bulk save. */
module Singles {
  import opened Wrappers
  import opened Schema
  import opened Drafts
  import opened Bulk
  import opened Outcomes
  import opened Hidden

  /** What a call of a single builder's mutator leaves: the draft of the mutation, what was sent, the value
      that came back (an account or nil, or no value at all), whether the mutation is done, the error. */
  datatype Call = Call(
    draft: Draft,
    sent: seq<Spec>,
    value: Option<Option<AccountRow>>,
    done: bool,
    error: Option<SaveError>)

  /** What a single save leaves, and what it returns: an account, or nil. */
  datatype Single = Single(
    draft: Draft,
    sent: seq<Spec>,
    node: Option<AccountRow>,
    done: bool,
    error: Option<SaveError>)

  function IDOr0(id: Option<int>): int { if id.Some? then id.value else 0 }

  /** check, createSpec and the insert of one row, whose id the database must give. */
  function SaveRow(env: Env, conflict: seq<string>, d: Draft): Call {
    var failed := CheckError(env.runtime, d);
    if failed.Some? then Call(d, [], Some(None), false, failed)
    else
      var spec := SpecOf(env.runtime, d, conflict);
      match env.insert([spec])
      case NotInserted(e) => Call(d, [spec], Some(None), false, Some(e))
      case Inserted(ids) => Call(d, [spec], Some(Some(NodeOf(d).(id := IDOr0(ids(0))))), true, None)
  }

  /** The same inside the hooks of the builder from the k-th on. */
  function SaveHooked(env: Env, plan: Plan, d: Draft, k: nat): Call
    requires k <= |plan.hooks|
    decreases |plan.hooks| - k
  {
    if k == |plan.hooks| then SaveRow(env, plan.conflict, d)
    else
      match plan.hooks[k].edit(d)
      case Failure(e) => Call(d, [], None, false, Some(e))
      case Success(edited) =>
        var inner := SaveHooked(env, plan, edited, k + 1);
        inner.(error := plan.hooks[k].after(inner.error))
  }

  /** sqlSave inside all the hooks. Next to an error nothing is returned. A hook that hides an error leaves no
      value, which is an error again, or the nil account of sqlSave, which is not. */
  function SaveWithHooks(env: Env, plan: Plan, d: Draft): Single {
    var r := SaveHooked(env, plan, d, 0);
    var error := if r.error.None? && r.value.None? then Some(UnexpectedValue) else r.error;
    Single(r.draft, r.sent, if error.Some? then None else r.value.value, r.done, error)
  }

  /** Saving a single builder: unlike a bulk save, it stops at an error of defaults(). */
  function SavedAlone(env: Env, plan: Plan, d: Draft): Single {
    var error, filled := Defaults(env.runtime, d).error, WithDefaults(env.runtime, d);
    if error.Some? then Single(filled, [], None, false, error) else SaveWithHooks(env, plan, filled)
  }

  // ----- the hooks around a single save -----

  /** If no hook fails, hooks around a single save amount to one check and insert of the edited draft, whose
      error goes through all of them; if one fails, nothing is sent and no value comes back. */
  lemma {:induction false} HookedExactly(env: Env, plan: Plan, d: Draft, k: nat)
    requires k <= |plan.hooks|
    ensures
      var r, edited := SaveHooked(env, plan, d, k), EditAll(plan.hooks, k, d);
      if edited.Success? then
        var row := SaveRow(env, plan.conflict, edited.value);
        r == row.(error := AfterAll(plan.hooks, k, row.error))
      else r.sent == [] && r.value == None && !r.done
    decreases |plan.hooks| - k
  {
    if k < |plan.hooks| && plan.hooks[k].edit(d).Success? {
      HookedExactly(env, plan, plan.hooks[k].edit(d).value, k + 1);
    }
  }

  /** A single save returns a nil account without an error exactly if no hook fails, the check or the insert
      does, and the hooks hide that error. */
  lemma NilAccountExactly(env: Env, plan: Plan, d: Draft)
    ensures
      var r, edited := SaveWithHooks(env, plan, d), EditAll(plan.hooks, 0, d);
      r.error.None? && r.node.None? <==>
        && edited.Success? && SaveRow(env, plan.conflict, edited.value).error.Some?
        && AfterAll(plan.hooks, 0, SaveRow(env, plan.conflict, edited.value).error).None?
  {
    HookedExactly(env, plan, d, 0);
  }

  /** This happens: one hook that hides errors and a database that refuses. */
  lemma NilAccountHappens() returns (env: Env, plan: Plan, d: Draft)
    ensures SavedAlone(env, plan, d).error.None? && SavedAlone(env, plan, d).node.None?
    ensures !SavedAlone(env, plan, d).done
  {
    var runtime, full, _ := SampleDrafts();
    var plans;
    env, plans := SamplePlans(runtime);
    plan, d := plans[1], full;
    var filled := WithDefaults(runtime, full);
    var hooks := plan.hooks;
    assert EditAll(hooks, 0, filled) == EditAll(hooks, 1, filled) == Success(filled);
    var row := SaveRow(env, plan.conflict, filled);
    assert AfterAll(hooks, 0, row.error) == hooks[0].after(AfterAll(hooks, 1, row.error)) == None;
    HookedExactly(env, plan, filled, 0);
    NilAccountExactly(env, plan, filled);
  }

  /** What a save of one builder comes to if nothing but its own check, or that of a hook, and the answer of
      the database decide. */
  predicate OneSaved(env: Env, conflict: seq<string>, made: Result<Draft, SaveError>, r: Single) {
    if made.Failure? then r.sent == [] && r.error.Some? && !r.done
    else
      var spec := SpecOf(env.runtime, made.value, conflict);
      && r.sent == [spec] && r.draft == made.value
      && match env.insert([spec])
         case NotInserted(_) => r.error.Some? && !r.done && r.node == None
         case Inserted(ids) => r.error.None? && r.done && r.node == Some(NodeOf(made.value).(id := IDOr0(ids(0))))
  }

  /** With hooks that pass errors and successes on, a single save succeeds exactly if its defaults are there,
      its check passes and the database accepts its spec; it then is done and returns its own node. */
  lemma {:induction false} SavedAloneExactly(env: Env, plan: Plan, d: Draft)
    requires forall h | 0 <= h < |plan.hooks| :: Honest(plan.hooks[h]) && Lenient(plan.hooks[h])
    ensures
      var error := Defaults(env.runtime, d).error;
      var made := if error.Some? then Failure(error.value) else Prepared(env, plan, d);
      OneSaved(env, plan.conflict, made, SavedAlone(env, plan, d))
  {
    BuiltExactly(env, plan, WithDefaults(env.runtime, d));
  }

  lemma {:induction false} BuiltExactly(env: Env, plan: Plan, d: Draft)
    requires forall h | 0 <= h < |plan.hooks| :: Honest(plan.hooks[h]) && Lenient(plan.hooks[h])
    ensures OneSaved(env, plan.conflict, BuiltFrom(env, plan, d, 0), SaveWithHooks(env, plan, d))
  {
    PassedOn(env, plan, d);
  }

  lemma {:induction false} PassedOn(env: Env, plan: Plan, d: Draft)
    requires forall h | 0 <= h < |plan.hooks| :: Honest(plan.hooks[h]) && Lenient(plan.hooks[h])
    ensures
      var r, edited := SaveWithHooks(env, plan, d), EditAll(plan.hooks, 0, d);
      if edited.Failure? then r.sent == [] && r.error.Some? && !r.done
      else
        var row := SaveRow(env, plan.conflict, edited.value);
        && r.sent == row.sent && r.draft == edited.value && (r.error.None? <==> row.error.None?)
        && r.done == row.done && r.node == row.value.value
  {
    HookedExactly(env, plan, d, 0);
    var edited := EditAll(plan.hooks, 0, d);
    if edited.Failure? {
      HonestHooked(env, plan, d, 0);
    } else {
      var row := SaveRow(env, plan.conflict, edited.value);
      if row.error.Some? { HonestAfter(plan.hooks, 0, row.error.value); } else { LenientAfter(plan.hooks, 0); }
    }
  }

  lemma {:induction false} HonestHooked(env: Env, plan: Plan, d: Draft, k: nat)
    requires k <= |plan.hooks| && forall h | 0 <= h < |plan.hooks| :: Honest(plan.hooks[h])
    requires EditAll(plan.hooks, k, d).Failure?
    ensures SaveHooked(env, plan, d, k).error.Some?
    decreases |plan.hooks| - k
  {
    if plan.hooks[k].edit(d).Success? {
      HonestHooked(env, plan, plan.hooks[k].edit(d).value, k + 1);
      assert Honest(plan.hooks[k]);
    }
  }

  // ----- what a save stores -----

  /** The values of the package variables have the types of their columns. */
  ghost predicate TypedRuntime(runtime: Runtime) {
    && (forall c | DefaultsToCall(c) && c in runtime.functions :: OfType(SpecType(c).value, runtime.functions[c]))
    && forall c | DefaultsToValue(c) :: OfType(SpecType(c).value, runtime.values(c))
  }

  lemma DefaultsAreTyped(runtime: Runtime, d: Draft)
    requires TypedRuntime(runtime) && TypedDraft(d)
    ensures TypedDraft(WithDefaults(runtime, d))
  {
    DefaultsBySchema(runtime, d);
  }

  /** What a row that is created from a draft has for a column: what was set, or the default of the column. */
  function Stored(runtime: Runtime, d: Draft, c: AccountColumn): Option<Value> {
    if c in d.fields then Some(d.fields[c])
    else if DefaultsToCall(c) then if c in runtime.functions then Some(runtime.functions[c]) else None
    else if DefaultsToValue(c) then Some(runtime.values(c))
    else None
  }

  /** By the schema, a row can be created from a draft: no default function that is needed is missing, name, platform
      and type are set, and the validators accept what is set and what the defaults are. */
  ghost predicate Creatable(runtime: Runtime, d: Draft) {
    && (forall c | DefaultsToCall(c) :: c in d.fields || c in runtime.functions)
    && Name in d.fields && Platform in d.fields && Type in d.fields
    && forall c | Constrained(c) && Stored(runtime, d, c).Some? :: runtime.accepts(c, Stored(runtime, d, c).value)
  }

  lemma DefaultedStored(runtime: Runtime, d: Draft, c: AccountColumn)
    requires Defaults(runtime, d).error.None?
    ensures c in WithDefaults(runtime, d).fields <==> Stored(runtime, d, c).Some?
    ensures c in WithDefaults(runtime, d).fields ==> Stored(runtime, d, c) == Some(WithDefaults(runtime, d).fields[c])
  {
    var stop := DefaultsFill(runtime, d);
    ColumnsWithDefault(c);
    assert FUNCTION_DEFAULTS[..stop] == FUNCTION_DEFAULTS;
  }

  /** A builder without hooks is sent exactly if the schema lets a row be created from it, as that row and no other,
      and the save succeeds exactly if the database then accepts it. */
  lemma CreatesExactly(env: Env, plan: Plan, d: Draft, id: int)
    requires plan.hooks == [] && TypedRuntime(env.runtime) && TypedDraft(d)
    ensures SavedAlone(env, plan, d).sent != [] <==> Creatable(env.runtime, d)
    ensures SavedAlone(env, plan, d).error.None? <==>
            Creatable(env.runtime, d) && env.insert(SavedAlone(env, plan, d).sent).Inserted?
    ensures Creatable(env.runtime, d) ==>
      && |SavedAlone(env, plan, d).sent| == 1
      && IsRowOf(env.runtime, d, id, RowOf(SavedAlone(env, plan, d).sent[0], id))
  {
    var filled := WithDefaults(env.runtime, d);
    SavedAloneExactly(env, plan, d);
    DefaultsBySchema(env.runtime, d);
    DefaultsAreTyped(env.runtime, d);
    CreatedIsDraft(env.runtime, filled, plan.conflict, id);
    if Defaults(env.runtime, d).error.None? {
      forall c { DefaultedStored(env.runtime, d, c); }
      DefaultedPasses(env.runtime, d);
    }
  }

  lemma PreparedExactly(env: Env, plan: Plan, d: Draft, id: int)
    requires plan.hooks == [] && TypedRuntime(env.runtime) && TypedDraft(d)
    ensures Prepared(env, plan, d).Success? <==> Creatable(env.runtime, d)
    ensures Prepared(env, plan, d).Success? ==>
      IsRowOf(env.runtime, d, id, RowOf(SpecOf(env.runtime, Prepared(env, plan, d).value, plan.conflict), id))
  {
    var filled := WithDefaults(env.runtime, d);
    PreparedPlain(env, plan, d);
    DefaultsBySchema(env.runtime, d);
    DefaultsAreTyped(env.runtime, d);
    CreatedIsDraft(env.runtime, filled, plan.conflict, id);
    if Defaults(env.runtime, d).error.None? {
      forall c { DefaultedStored(env.runtime, d, c); }
      DefaultedPasses(env.runtime, d);
    } else {
      DroppedErrorResurfaces(env.runtime, d, Defaults(env.runtime, d).error.value.column, filled);
    }
  }

  ghost predicate AllCreatable(runtime: Runtime, drafts: seq<Draft>) {
    forall j | 0 <= j < |drafts| :: Creatable(runtime, drafts[j])
  }

  /** A list of builders without hooks is sent, as one batch with the row of every builder, exactly if the schema lets
      a row be created from each of them. */
  lemma {:induction false} BulkCreatesExactly(env: Env, plans: seq<Plan>, drafts: seq<Draft>, id: int)
    requires |plans| == |drafts| && plans != [] && TypedRuntime(env.runtime)
    requires forall j | 0 <= j < |plans| :: plans[j].hooks == [] && TypedDraft(drafts[j])
    ensures
      var batches := Saved(env, plans, drafts, []).state.batches;
      if !AllCreatable(env.runtime, drafts) then batches == []
      else
        && |batches| == 1 && |batches[0]| == |plans|
        && forall j | 0 <= j < |plans| :: IsRowOf(env.runtime, drafts[j], id, RowOf(batches[0][j], id))
  {
    forall j | 0 <= j < |plans| { PreparedExactly(env, plans[j], drafts[j], id); }
    InsertsExactlyOnce(env, plans, drafts, []);
    if AllCreatable(env.runtime, drafts) {
      forall j | 0 <= j < |plans| ensures Prepared(env, plans[j], drafts[j]).Success? {
        assert Creatable(env.runtime, drafts[j]);
      }
    } else {
      var j :| 0 <= j < |drafts| && !Creatable(env.runtime, drafts[j]);
      assert Prepared(env, plans[j], drafts[j]).Failure?;
    }
  }

  ghost predicate IsRowOf(runtime: Runtime, d: Draft, id: int, row: AccountRow) {
    && row.id == id && row.proxyID == d.proxy && row.parentAccountID == d.parent
    && forall c :: (c in row.attrs <==> Stored(runtime, d, c).Some?) &&
                   (c in row.attrs ==> Some(row.attrs[c]) == Stored(runtime, d, c))
  }

  // ----- builders that only pass in a bulk save -----

  /** A builder whose defaults stop at a nil function fails alone, with nothing sent. In a bulk save it passes
      exactly if no hook fails and the hooks leave a draft that the schema lets be stored. */
  lemma RescuedExactly(env: Env, plan: Plan, d: Draft)
    requires Defaults(env.runtime, d).error.Some?
    ensures SavedAlone(env, plan, d).error == Defaults(env.runtime, d).error && SavedAlone(env, plan, d).sent == []
    ensures
      var edited := EditAll(plan.hooks, 0, WithDefaults(env.runtime, d));
      Prepared(env, plan, d).Success? <==>
        edited.Success? && Storable(env.runtime, edited.value.fields)
  {
    var edited := EditAll(plan.hooks, 0, WithDefaults(env.runtime, d));
    if edited.Success? { CheckPasses(env.runtime, edited.value); }
  }

  /** To pass, hooks must set the column whose default was nil and every later column with a default that was
      not set before, because defaults() gives up at the first nil function. */
  lemma RescueSetsTheRest(env: Env, plan: Plan, d: Draft, nil: AccountColumn)
    requires Defaults(env.runtime, d).error == Some(NilDefault(nil)) && Prepared(env, plan, d).Success?
    ensures forall c | c !in d.fields && HasLaterDefault(nil, c) ::
      c !in WithDefaults(env.runtime, d).fields && c in Prepared(env, plan, d).value.fields
  {
    DefaultsBySchema(env.runtime, d);
    RescuedExactly(env, plan, d);
    forall c { MandatoryExactly(c); }
  }

  /** Defaults that are filled in no earlier than that of a column, a call. */
  predicate HasLaterDefault(nil: AccountColumn, c: AccountColumn) {
    DefaultsToValue(c) || (DefaultsToCall(c) && SchemaOrder(nil) <= SchemaOrder(c))
  }

  /** This happens: the hook fills in what the missing default functions do not, and the bulk save succeeds where
      the single save fails. */
  lemma RescueHappens() returns (env: Env, plan: Plan, d: Draft)
    ensures forall h | 0 <= h < |plan.hooks| :: Honest(plan.hooks[h]) && Lenient(plan.hooks[h])
    ensures Defaults(env.runtime, d).error.Some? && Prepared(env, plan, d).Success?
    ensures SavedAlone(env, plan, d).error.Some?
    ensures Saved(env, [plan], [d], []).error.None? && Saved(env, [plan], [d], []).state.done == [true]
  {
    var runtime, full, empty := SampleDrafts();
    var filled := WithDefaults(runtime, full);
    var hook := Hook(_ => Success(filled), e => e);
    env, plan, d := Env(runtime, _ => Inserted(i => Some(i + 1))), Plan([hook], []), empty;
    assert EditAll([hook], 0, WithDefaults(runtime, empty)) == EditAll([hook], 1, filled) == Success(filled);
    SavedWhenPassing(env, plan, d);
  }

  lemma {:induction false} SavedWhenPassing(env: Env, plan: Plan, d: Draft)
    requires Prepared(env, plan, d).Success? && forall specs :: env.insert(specs).Inserted?
    requires forall h | 0 <= h < |plan.hooks| :: Lenient(plan.hooks[h])
    ensures Saved(env, [plan], [d], []).error.None? && Saved(env, [plan], [d], []).state.done == [true]
  {
    AllDone(env, [plan], [d], []);
    assert Saved(env, [plan], [d], []).state.done[0];
  }
}
