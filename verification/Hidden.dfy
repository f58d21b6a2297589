/** What hooks that hide errors do to a save: concrete inputs, and exactly when they do it. */
module Hidden {
  import opened Wrappers
  import opened Schema
  import opened Drafts
  import opened Bulk
  import opened Outcomes

  /** A hook that leaves the mutation alone and hides every error. */
  ghost predicate Hides(hook: Hook) {
    (forall d :: hook.edit(d) == Success(d)) && forall e :: hook.after(e) == None
  }

  function HidingHook(): (hook: Hook)
    ensures Hides(hook)
  {
    Hook(d => Success(d), _ => None)
  }

  // ----- sample drafts -----

  /** With a runtime that accepts every value but has no default functions, a draft with all columns passes
      its check, and a draft with none neither fills its defaults nor passes. */
  lemma SampleDrafts() returns (runtime: Runtime, full: Draft, empty: Draft)
    ensures Defaults(runtime, full).error.None? && CheckError(runtime, WithDefaults(runtime, full)).None?
    ensures Defaults(runtime, empty).error.Some? && CheckError(runtime, WithDefaults(runtime, empty)).Some?
  {
    runtime := Runtime(map[], _ => Null, (_, _) => true, map[]);
    empty := Draft(map[], {}, None, None, {}, {});
    full := empty.(fields := AllNull());
    FullPasses(runtime, full);
    EmptyFails(runtime, empty);
  }

  function AllNull(): (fields: map<AccountColumn, Value>)
    ensures forall c: AccountColumn | !c.OtherColumn? :: c in fields
  {
    forall c: AccountColumn | !c.OtherColumn? { KnownColumns(c); }
    map c | c in ACCOUNT_COLUMNS :: Null
  }

  lemma FullPasses(runtime: Runtime, full: Draft)
    requires (forall c: AccountColumn | !c.OtherColumn? :: c in full.fields) && forall c, v :: runtime.accepts(c, v)
    ensures Defaults(runtime, full).error.None? && CheckError(runtime, WithDefaults(runtime, full)).None?
  {
    DefaultsBySchema(runtime, full);
    CheckPasses(runtime, WithDefaults(runtime, full));
  }

  lemma EmptyFails(runtime: Runtime, empty: Draft)
    requires empty.fields == map[] && runtime.functions == map[]
    ensures Defaults(runtime, empty).error.Some? && CheckError(runtime, WithDefaults(runtime, empty)).Some?
  {
    DefaultsBySchema(runtime, empty);
    CheckPasses(runtime, WithDefaults(runtime, empty));
    assert DefaultsToCall(CreatedAt) && Mandatory(Name) && !DefaultsToCall(Name) && !DefaultsToValue(Name);
  }

  lemma PreparedPlain(env: Env, plan: Plan, d: Draft)
    requires plan.hooks == []
    ensures Prepared(env, plan, d).Success? <==> CheckError(env.runtime, WithDefaults(env.runtime, d)).None?
  {
  }

  lemma PreparedHiding(env: Env, plan: Plan, d: Draft)
    requires |plan.hooks| == 1 && Hides(plan.hooks[0])
    ensures Prepared(env, plan, d).Success? <==> CheckError(env.runtime, WithDefaults(env.runtime, d)).None?
    ensures Prepared(env, plan, d).Failure? ==> Stopped(env, plan, WithDefaults(env.runtime, d), 0) == None
  {
    var filled := WithDefaults(env.runtime, d);
    assert EditAll(plan.hooks, 0, filled) == EditAll(plan.hooks, 1, filled);
  }

  // ----- bulk saves -----

  /** Two builders, the second of which has a hook around it that hides errors. */
  ghost predicate SecondHides(plans: seq<Plan>, drafts: seq<Draft>) {
    |plans| == |drafts| == 2 && plans[0].hooks == [] && |plans[1].hooks| == 1 && Hides(plans[1].hooks[0])
  }

  /** A batch that the database refuses then looks saved, with the first mutation done, the second not. */
  lemma {:induction false} HiddenRefusalLooksSaved(env: Env, plans: seq<Plan>, drafts: seq<Draft>)
    requires SecondHides(plans, drafts) && AllPrepared(env, plans, drafts)
    requires env.insert(EachSpec(env, plans, drafts)).NotInserted?
    ensures Saved(env, plans, drafts, []).error.None? && Saved(env, plans, drafts, []).state.done == [true, false]
  {
    SavedWhenPrepared(env, plans, drafts, []);
    DoneExactly(env, plans, drafts, [], 0);
    DoneExactly(env, plans, drafts, [], 1);
    assert plans[..2] == plans;
    var e, hooks := Answer(env, plans, drafts), plans[1].hooks;
    assert ErrorBehind(plans, 1, e) == e;
    assert AfterAll(hooks, 0, e) == hooks[0].after(AfterAll(hooks, 1, e)) == None;
  }

  /** Worse, so does a batch whose second builder fails its own check: the first mutation is done although
      nothing was ever sent, and the second node is nil. */
  lemma {:induction false} HiddenCheckLooksSaved(env: Env, plans: seq<Plan>, drafts: seq<Draft>)
    requires SecondHides(plans, drafts)
    requires Prepared(env, plans[0], drafts[0]).Success? && Prepared(env, plans[1], drafts[1]).Failure?
    ensures
      var r := Saved(env, plans, drafts, []);
      r.error.None? && r.state.done == [true, false] && r.state.batches == [] && r.state.nodes[1] == None
  {
    assert Passing(env, plans, drafts) == 1;
    PreparedHiding(env, plans[1], drafts[1]);
    SavedExactly(env, plans, drafts, []);
    DoneExactly(env, plans, drafts, [], 0);
    DoneExactly(env, plans, drafts, [], 1);
    assert UntouchedAt(env, plans, drafts, Saved(env, plans, drafts, []).state, 1);
  }

  lemma SamplePlans(runtime: Runtime) returns (env: Env, plans: seq<Plan>)
    ensures env.runtime == runtime && forall specs :: env.insert(specs).NotInserted?
    ensures |plans| == 2 && plans[0].hooks == [] && |plans[1].hooks| == 1 && Hides(plans[1].hooks[0])
  {
    env := Env(runtime, _ => NotInserted(Refused("")));
    plans := [Plan([], []), Plan([HidingHook()], [])];
  }

  /** Saves of both kinds. */
  lemma SampleSaves() returns (env: Env, plans: seq<Plan>, passing: seq<Draft>, failing: seq<Draft>)
    ensures SecondHides(plans, passing) && SecondHides(plans, failing)
    ensures forall specs :: env.insert(specs).NotInserted?
    ensures AllPrepared(env, plans, passing) && forall j | 0 <= j < 2 :: Defaults(env.runtime, passing[j]).error.None?
    ensures Prepared(env, plans[0], failing[0]).Success? && Prepared(env, plans[1], failing[1]).Failure?
  {
    var runtime, full, empty := SampleDrafts();
    env, plans := SamplePlans(runtime);
    passing, failing := [full, full], [full, empty];
    PreparedPlain(env, plans[0], full);
    PreparedHiding(env, plans[1], full);
    PreparedHiding(env, plans[1], empty);
    forall j | 0 <= j < 2 ensures Prepared(env, plans[j], passing[j]).Success? { assert j == 0 || j == 1; }
  }

  /** Both happen. */
  lemma HiddenRefusalHappens() returns (env: Env, plans: seq<Plan>, drafts: seq<Draft>)
    ensures SecondHides(plans, drafts) && AllPrepared(env, plans, drafts)
    ensures Saved(env, plans, drafts, []).error.None? && Saved(env, plans, drafts, []).state.done == [true, false]
  {
    var other;
    env, plans, drafts, other := SampleSaves();
    HiddenRefusalLooksSaved(env, plans, drafts);
  }

  lemma HiddenCheckHappens() returns (env: Env, plans: seq<Plan>, drafts: seq<Draft>)
    ensures SecondHides(plans, drafts) && !AllPrepared(env, plans, drafts)
    ensures Saved(env, plans, drafts, []).error.None? && Saved(env, plans, drafts, []).state.done == [true, false]
  {
    var other;
    env, plans, other, drafts := SampleSaves();
    HiddenCheckLooksSaved(env, plans, drafts);
  }
}
