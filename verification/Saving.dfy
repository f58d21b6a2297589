/** Create builders as objects, and the bulk save that runs over arrays of specs, nodes and mutators. */
module Saving {
  import opened Wrappers
  import opened Schema
  import opened Queries
  import opened Entities
  import opened Drafts
  import opened Bulk
  import opened Outcomes
  import opened Singles

  class AccountMutation {
    var draft: Draft
    var node: Account?
    var done: bool

    constructor (draft: Draft)
      ensures this.draft == draft && node == null && !done
    {
      this.draft, node, done := draft, null, false;
    }
  }

  class CreateSpec {
    const spec: Spec
    var id: Option<int>

    constructor (spec: Spec)
      ensures this.spec == spec && id == None
    {
      this.spec, id := spec, None;
    }
  }

  /** The connection to the database, with a record of what was sent. */
  class Driver {
    var batches: seq<seq<Spec>>
    ghost var trace: seq<Event>

    ghost method Log(e: Event)
      modifies this`trace
      ensures trace == old(trace) + [e]
    {
      trace := trace + [e];
    }

    /** Inserts a batch, filling in the ids of its specs. */
    method BatchCreate(specs: seq<CreateSpec?>, insert: seq<Spec> -> Insert) returns (err: Option<SaveError>)
      requires forall j | 0 <= j < |specs| :: specs[j] != null
      requires forall j, k | 0 <= j < k < |specs| :: specs[j] != specs[k]
      modifies this, (set s | s in specs)`id
      ensures
        var sent := seq(|specs|, j requires 0 <= j < |specs| => specs[j].spec);
        && batches == old(batches) + [sent] && trace == old(trace) + [Insertion]
        && err == InsertError(insert(sent))
        && forall j | 0 <= j < |specs| ::
             specs[j].id == if insert(sent).Inserted? then insert(sent).ids(j) else old(specs[j].id)
    {
      var sent := seq(|specs|, j requires 0 <= j < |specs| => specs[j].spec);
      batches := batches + [sent];
      Log(Insertion);
      match insert(sent) {
        case NotInserted(e) => return Some(e);
        case Inserted(ids) =>
          for i := 0 to |specs|
            modifies (set s | s in specs)`id
            invariant forall j | 0 <= j < i :: specs[j].id == ids(j)
          {
            specs[i].id := ids(i);
          }
          return None;
      }
    }
  }

  /** What the closures of a save are: the mutator of a builder, or a hook around a mutator. */
  datatype Mutator = Base(builder: nat) | Wrapped(hook: Hook, next: Mutator)

  /** The mutator of builder i inside its hooks from the k-th on. */
  function Layers(hooks: seq<Hook>, i: nat, k: nat): Mutator
    requires k <= |hooks|
    decreases |hooks| - k
  {
    if k == |hooks| then Base(i) else Wrapped(hooks[k], Layers(hooks, i, k + 1))
  }

  /** Wraps the base mutator of a builder in its hooks, the last hook first. */
  method WrapHooks(hooks: seq<Hook>, i: nat) returns (mut: Mutator)
    ensures mut == Layers(hooks, i, 0)
  {
    mut := Base(i);
    for k := |hooks| downto 0
      invariant mut == Layers(hooks, i, k)
    {
      mut := Wrapped(hooks[k], mut);
    }
  }

  /** What a save of one builder finds. */
  datatype Before = Before(node: Account?, done: bool, batches: seq<seq<Spec>>)

  ghost predicate NodeIs(node: Account?, row: Option<AccountRow>)
    reads if node != null then {node} else {}
  {
    row == if node == null then None else Some(node.Row())
  }

  class AccountCreate {
    var mutation: AccountMutation
    const hooks: seq<Hook>
    const conflict: seq<string>

    constructor (mutation: AccountMutation, hooks: seq<Hook>, conflict: seq<string>)
      ensures this.mutation == mutation && this.hooks == hooks && this.conflict == conflict
    {
      this.mutation, this.hooks, this.conflict := mutation, hooks, conflict;
    }

    method Defaults(runtime: Runtime) returns (err: Option<SaveError>)
      modifies mutation`draft
      ensures mutation.draft == WithDefaults(runtime, old(mutation.draft))
      ensures err == Drafts.Defaults(runtime, old(mutation.draft)).error
    {
      var filled := Drafts.Defaults(runtime, mutation.draft);
      mutation.draft := mutation.draft.(fields := filled.fields);
      err := filled.error;
    }

    method Check(runtime: Runtime) returns (err: Option<SaveError>)
      ensures err == CheckError(runtime, mutation.draft)
    {
      err := CheckError(runtime, mutation.draft);
    }

    static method NewNode(row: AccountRow) returns (node: Account)
      requires row.id == 0
      ensures fresh(node) && node.Row() == row
    {
      node := new Account(Loaded(false, false, false, false, false));
      node.proxyID, node.parentAccountID, node.attrs := row.proxyID, row.parentAccountID, row.attrs;
    }

    method CreateSpec(runtime: Runtime) returns (node: Account, spec: CreateSpec)
      ensures fresh(node) && fresh(spec)
      ensures node.Row() == NodeOf(mutation.draft)
      ensures spec.spec == SpecOf(runtime, mutation.draft, conflict) && spec.id == None
    {
      node := NewNode(NodeOf(mutation.draft));
      spec := new CreateSpec(SpecOf(runtime, mutation.draft, conflict));
    }

    ghost function Now(driver: Driver): Before
      reads this, mutation, driver
    {
      Before(mutation.node, mutation.done, driver.batches)
    }

    /** The mutation and the driver after something was sent, and perhaps the mutation finished. */
    ghost predicate LeftAs(draft: Draft, sent: seq<Spec>, finished: bool, was: Before, driver: Driver)
      reads this, mutation, driver
    {
      && mutation.draft == draft && mutation.done == (was.done || finished) && (!finished ==> mutation.node == was.node)
      && driver.batches == was.batches + (if sent == [] then [] else [sent])
    }

    /** The value, the error and the objects after a mutator was called are as that outcome says. */
    ghost predicate CalledAs(r: Call, value: Option<Account?>, err: Option<SaveError>, was: Before, driver: Driver)
      reads this, mutation, driver, if value.Some? && value.value != null then {value.value} else {}
    {
      && LeftAs(r.draft, r.sent, r.done, was, driver) && err == r.error
      && (r.value.None? <==> value.None?) && (value.Some? ==> NodeIs(value.value, r.value.value))
      && (r.done ==> value == Some(mutation.node))
    }

    /** The account or nil, the error and the objects after a save are as that outcome says. */
    ghost predicate SavedAs(r: Single, node: Account?, err: Option<SaveError>, was: Before, driver: Driver)
      reads this, mutation, driver, if node != null then {node} else {}
    {
      && LeftAs(r.draft, r.sent, r.done, was, driver) && err == r.error && NodeIs(node, r.node)
      && (r.done && err.None? ==> node == mutation.node)
    }

    /** Checks, creates and inserts one row. */
    method SqlSave(env: Env, driver: Driver) returns (node: Account?, err: Option<SaveError>)
      modifies mutation`node, mutation`done, driver
      ensures
        CalledAs(SaveRow(env, conflict, mutation.draft), Some(node), err, old(Now(driver)), driver)
    {
      ghost var r, batches := SaveRow(env, conflict, mutation.draft), driver.batches;
      node := null;
      err := Check(env.runtime);
      if err.Some? { return; }
      var created, spec := CreateSpec(env.runtime);
      err := driver.BatchCreate([spec], env.insert);
      assert seq(1, j requires 0 <= j < 1 => [spec][j].spec) == [spec.spec];
      assert [spec][0].id == spec.id;
      assert driver.batches == batches + [r.sent];
      if err.Some? { return; }
      if spec.id.Some? { created.id := spec.id.value; }
      mutation.node := created;
      mutation.done := true;
      node := created;
    }

    /** Calls the hooks from the k-th on, the last of which calls SqlSave. */
    method MutateAlone(mut: Mutator, env: Env, driver: Driver, ghost k: nat)
      returns (value: Option<Account?>, err: Option<SaveError>)
      requires k <= |hooks| && mut == Layers(hooks, 0, k)
      modifies mutation, driver
      ensures
        var r := SaveHooked(env, Plan(hooks, conflict), old(mutation.draft), k);
        CalledAs(r, value, err, old(Now(driver)), driver)
      decreases |hooks| - k
    {
      match mut {
        case Base(_) =>
          var node;
          node, err := SqlSave(env, driver);
          value := Some(node);
        case Wrapped(hook, next) =>
          match hook.edit(mutation.draft) {
            case Failure(e) => return None, Some(e);
            case Success(d) =>
              mutation.draft := d;
              value, err := MutateAlone(next, env, driver, k + 1);
              err := hook.after(err);
          }
      }
    }

    /** Wraps SqlSave in the hooks and calls the outermost. Next to an error it returns nil. */
    method WithHooks(env: Env, driver: Driver) returns (node: Account?, err: Option<SaveError>)
      modifies mutation, driver
      ensures
        var r := SaveWithHooks(env, Plan(hooks, conflict), old(mutation.draft));
        SavedAs(r, node, err, old(Now(driver)), driver)
    {
      var mut := WrapHooks(hooks, 0);
      var value;
      value, err := MutateAlone(mut, env, driver, 0);
      if err.Some? { return null, err; }
      if value.None? { return null, Some(UnexpectedValue); }
      node := value.value;
    }

    /** Saves this builder alone. */
    method Save(env: Env, driver: Driver) returns (node: Account?, err: Option<SaveError>)
      modifies mutation, driver
      ensures
        var r := SavedAlone(env, Plan(hooks, conflict), old(mutation.draft));
        SavedAs(r, node, err, old(Now(driver)), driver)
    {
      node := null;
      err := Defaults(env.runtime);
      if err.Some? { return; }
      node, err := WithHooks(env, driver);
    }
  }

  /** The innermost mutator: check, create, go on, finish. */
  lemma {:induction false} MutatedAtBase(env: Env, plans: seq<Plan>, s: State, i: nat)
    requires i < |plans| && s.Sized(|plans|)
    ensures
      Mutated(env, plans, s, i, |plans[i].hooks|) ==
      var failed := CheckError(env.runtime, s.drafts[i]);
      if failed.Some? then Bulk.Run(s, failed)
      else
        var spec, node := SpecOf(env.runtime, s.drafts[i], plans[i].conflict), NodeOf(s.drafts[i]);
        var behind := Forwarded(env, plans, s.Created(i, spec, node), i);
        if behind.error.Some? then behind else Bulk.Run(behind.state.Finished(i), None)
  {
  }

  // ----- the state behind the objects -----

  /** Mutations, specs and nodes at different positions are different objects. */
  ghost predicate Unshared(muts: seq<AccountMutation>, specs: seq<CreateSpec?>, nodes: seq<Account?>) {
    && |muts| == |specs| == |nodes|
    && (forall j, k | 0 <= j < k < |muts| :: muts[j] != muts[k])
    && (forall j, k | 0 <= j < k < |specs| :: specs[j] == null || specs[j] != specs[k])
    && (forall j, k | 0 <= j < k < |nodes| :: nodes[j] == null || nodes[j] != nodes[k])
  }

  ghost function Observed(muts: seq<AccountMutation>, specs: seq<CreateSpec?>, nodes: seq<Account?>,
                          driver: Driver): (s: State)
    requires |muts| == |specs| == |nodes|
    reads muts, specs, nodes, driver
    ensures s.Sized(|muts|)
  {
    State(
      seq(|muts|, j requires 0 <= j < |muts| reads muts => muts[j].draft),
      seq(|muts|, j requires 0 <= j < |muts| reads muts => muts[j].done),
      seq(|muts|, j requires 0 <= j < |muts| == |nodes| reads muts => muts[j].node != null && muts[j].node == nodes[j]),
      seq(|specs|, j requires 0 <= j < |specs| => if specs[j] == null then None else Some(specs[j].spec)),
      seq(|specs|, j requires 0 <= j < |specs| reads specs => if specs[j] == null then None else specs[j].id),
      seq(|nodes|, j requires 0 <= j < |nodes| reads nodes => if nodes[j] == null then None else Some(nodes[j].Row())),
      driver.batches, driver.trace)
  }

  ghost method Note(e: Event, driver: Driver, muts: seq<AccountMutation>, specs: seq<CreateSpec?>, nodes: seq<Account?>)
    requires |muts| == |specs| == |nodes|
    modifies driver`trace
    ensures Observed(muts, specs, nodes, driver) == old(Observed(muts, specs, nodes, driver)).Log(e)
  {
    driver.Log(e);
  }

  ghost function DraftsOf(muts: seq<AccountMutation>): seq<Draft>
    reads muts
  {
    seq(|muts|, j requires 0 <= j < |muts| reads muts => muts[j].draft)
  }

  /** A hook edits what a mutation carries. */
  method Edit(ghost i: nat, d: Draft, ghost muts: seq<AccountMutation>, m: AccountMutation,
              ghost specs: seq<CreateSpec?>,
              ghost nodes: seq<Account?>, ghost driver: Driver)
    requires Unshared(muts, specs, nodes) && i < |muts| && m == muts[i]
    modifies m`draft
    ensures Observed(muts, specs, nodes, driver) == old(Observed(muts, specs, nodes, driver)).Edited(i, d)
  {
    m.draft := d;
  }

  /** createSpec fills the i-th slots of both arrays with fresh objects. */
  method Fill(i: nat, builder: AccountCreate, runtime: Runtime, specs: array<CreateSpec?>, nodes: array<Account?>,
              ghost muts: seq<AccountMutation>, ghost driver: Driver)
    requires Unshared(muts, specs[..], nodes[..]) && i < |muts| && builder.mutation == muts[i] && muts[i].node == null
    modifies specs, nodes
    ensures Unshared(muts, specs[..], nodes[..])
    ensures specs[i] != null && fresh(specs[i]) && specs[..] == old(specs[..])[i := specs[i]]
    ensures nodes[i] != null && fresh(nodes[i]) && nodes[..] == old(nodes[..])[i := nodes[i]]
    ensures Observed(muts, specs[..], nodes[..], driver) ==
            old(Observed(muts, specs[..], nodes[..], driver)).Created(
              i, SpecOf(runtime, muts[i].draft, builder.conflict), NodeOf(muts[i].draft))
  {
    ghost var was, d := Observed(muts, specs[..], nodes[..], driver), muts[i].draft;
    var node, spec := builder.CreateSpec(runtime);
    nodes[i], specs[i] := node, spec;
    ghost var now := Observed(muts, specs[..], nodes[..], driver);
    ghost var goal := was.Created(i, SpecOf(runtime, d, builder.conflict), NodeOf(d));
    assert now.specs == goal.specs;
    assert now.nodes == goal.nodes;
    assert now.ids == goal.ids;
    assert now.linked == goal.linked;
  }

  /** A mutation learns its id from the node in its slot and is done. */
  method Finish(i: nat, m: AccountMutation, node: Account, spec: CreateSpec, ghost muts: seq<AccountMutation>,
                ghost specs: seq<CreateSpec?>, ghost nodes: seq<Account?>, driver: Driver)
    requires Unshared(muts, specs, nodes) && i < |muts| && m == muts[i] && node == nodes[i] && spec == specs[i]
    modifies m`node, m`done, node`id, driver`trace
    ensures Observed(muts, specs, nodes, driver) == old(Observed(muts, specs, nodes, driver)).Finished(i)
    ensures m.node == node
  {
    ghost var was := Observed(muts, specs, nodes, driver);
    m.node := node;
    if spec.id.Some? { node.id := spec.id.value; }
    m.done := true;
    driver.Log(Done(i));
    ghost var now, goal := Observed(muts, specs, nodes, driver), was.Finished(i);
    assert now.nodes == goal.nodes;
    assert now.done == goal.done;
    forall j | 0 <= j < |muts| ensures now.linked[j] == goal.linked[j] {
      if j != i { assert muts[j] != m && muts[j].node == old(muts[j].node); }
    }
    assert now.linked == goal.linked;
  }

  /** The last mutator sends the specs of all builders. */
  method Send(specs: seq<CreateSpec?>, insert: seq<Spec> -> Insert, driver: Driver,
              ghost muts: seq<AccountMutation>, ghost nodes: seq<Account?>)
    returns (err: Option<SaveError>)
    requires Unshared(muts, specs, nodes) && forall j | 0 <= j < |specs| :: specs[j] != null
    modifies driver, (set s | s in specs)`id
    ensures
      var was := old(Observed(muts, specs, nodes, driver));
      && err == InsertError(insert(Batch(was.specs)))
      && Observed(muts, specs, nodes, driver) == was.Sent(insert(Batch(was.specs)))
  {
    ghost var was := Observed(muts, specs, nodes, driver);
    BatchOfAll(was.specs, seq(|specs|, j requires 0 <= j < |specs| => specs[j].spec));
    err := driver.BatchCreate(specs, insert);
    ghost var now, goal := Observed(muts, specs, nodes, driver), was.Sent(insert(Batch(was.specs)));
    assert now.ids == goal.ids;
  }

  /** The answer and the objects are what a run of the first mutator says. */
  ghost predicate SavedAs(run: Bulk.Run, muts: seq<AccountMutation>, r: Result<seq<Account?>, SaveError>,
                          driver: Driver)
    requires run.state.Sized(|muts|)
    reads muts, driver, if r.Success? then (set n | n in r.value && n != null) else {}
  {
    && (r.Failure? <==> run.error.Some?)
    && (r.Failure? ==> Some(r.error) == run.error)
    && (r.Success? ==> |r.value| == |muts| && forall j | 0 <= j < |muts| ::
          && run.state.nodes[j] == (if r.value[j] == null then None else Some(r.value[j].Row()))
          && (run.state.linked[j] ==> muts[j].node == r.value[j]))
    && (forall j | 0 <= j < |muts| :: muts[j].draft == run.state.drafts[j] && muts[j].done == run.state.done[j])
    && driver.batches == run.state.batches && driver.trace == run.state.trace
  }

  lemma ObservedIsSaved(run: Bulk.Run, muts: seq<AccountMutation>, specs: seq<CreateSpec?>, nodes: seq<Account?>,
                        r: Result<seq<Account?>, SaveError>, driver: Driver)
    requires |muts| == |specs| == |nodes| && Observed(muts, specs, nodes, driver) == run.state
    requires r == match run.error case Some(e) => Failure(e) case None => Success(nodes)
    ensures SavedAs(run, muts, r, driver)
  {
  }

  class AccountCreateBulk {
    const err: Option<SaveError>
    const builders: seq<AccountCreate>

    constructor (builders: seq<AccountCreate>, err: Option<SaveError>)
      ensures this.builders == builders && this.err == err
    {
      this.builders, this.err := builders, err;
    }

    ghost function Plans(): (plans: seq<Plan>)
      ensures |plans| == |builders|
    {
      seq(|builders|, j requires 0 <= j < |builders| => Plan(builders[j].hooks, builders[j].conflict))
    }

    /** Every builder still has its own mutation, and every mutator is that of its builder. */
    ghost predicate Wired(muts: seq<AccountMutation>, mutators: seq<Mutator>)
      reads builders
    {
      && |muts| == |builders| == |mutators|
      && (forall j | 0 <= j < |builders| :: builders[j].mutation == muts[j])
      && forall j | 0 <= j < |builders| :: mutators[j] == Layers(builders[j].hooks, j, 0)
    }

    /** Calls a mutator. A hook may edit the mutation and calls the next mutator at most once; the
        innermost mutator checks, creates, calls the mutator of the next builder or sends the batch,
        and finishes. */
    method Mutate(mut: Mutator, m: AccountMutation, env: Env, specs: array<CreateSpec?>, nodes: array<Account?>,
                  mutators: array<Mutator>, driver: Driver, ghost muts: seq<AccountMutation>, ghost i: nat,
                  ghost k: nat)
      returns (err: Option<SaveError>)
      requires Unshared(muts, specs[..], nodes[..]) && Wired(muts, mutators[..]) && i < |muts|
      requires k <= |builders[i].hooks| && mut == Layers(builders[i].hooks, i, k) && m == muts[i]
      requires (forall j | 0 <= j < i :: specs[j] != null) && forall j | i <= j < |muts| :: muts[j].node == null
      modifies specs, nodes, driver, muts[i..], (set s | s in specs[..])`id, (set b | b in builders)`mutation
      ensures Unshared(muts, specs[..], nodes[..]) && Wired(muts, mutators[..])
      ensures specs[..i] == old(specs[..i]) && nodes[..i] == old(nodes[..i])
      ensures forall j | i <= j < |muts| :: muts[j].node == null || muts[j].node == nodes[j]
      ensures
        var run := Mutated(env, Plans(), old(Observed(muts, specs[..], nodes[..], driver)), i, k);
        err == run.error && Observed(muts, specs[..], nodes[..], driver) == run.state
      decreases |builders| - i, 1 + |builders[i].hooks| - k
    {
      match mut {
        case Wrapped(hook, next) =>
          Note(Enter(i, k), driver, muts, specs[..], nodes[..]);
          match hook.edit(m.draft) {
            case Failure(e) =>
              Note(Exit(i, k), driver, muts, specs[..], nodes[..]);
              return Some(e);
            case Success(d) =>
              Edit(i, d, muts, m, specs[..], nodes[..], driver);
              err := Mutate(next, m, env, specs, nodes, mutators, driver, muts, i, k + 1);
              err := hook.after(err);
              Note(Exit(i, k), driver, muts, specs[..], nodes[..]);
          }
        case Base(builder) =>
          err := MutateBase(builder, m, env, specs, nodes, mutators, driver, muts);
      }
    }

    method MutateBase(i: nat, m: AccountMutation, env: Env, specs: array<CreateSpec?>, nodes: array<Account?>,
                      mutators: array<Mutator>, driver: Driver, ghost muts: seq<AccountMutation>)
      returns (err: Option<SaveError>)
      requires Unshared(muts, specs[..], nodes[..]) && Wired(muts, mutators[..]) && i < |muts| && m == muts[i]
      requires (forall j | 0 <= j < i :: specs[j] != null) && forall j | i <= j < |muts| :: muts[j].node == null
      modifies specs, nodes, driver, muts[i..], (set s | s in specs[..])`id, (set b | b in builders)`mutation
      ensures Unshared(muts, specs[..], nodes[..]) && Wired(muts, mutators[..])
      ensures specs[..i] == old(specs[..i]) && nodes[..i] == old(nodes[..i])
      ensures forall j | i <= j < |muts| :: muts[j].node == null || muts[j].node == nodes[j]
      ensures
        var run := Mutated(env, Plans(), old(Observed(muts, specs[..], nodes[..], driver)), i, |builders[i].hooks|);
        err == run.error && Observed(muts, specs[..], nodes[..], driver) == run.state
      decreases |builders| - i, 0
    {
      MutatedAtBase(env, Plans(), Observed(muts, specs[..], nodes[..], driver), i);
      err := builders[i].Check(env.runtime);
      if err.None? { err := Complete(i, m, env, specs, nodes, mutators, driver, muts); }
    }

    /** What the innermost mutator does after its check. */
    method Complete(i: nat, m: AccountMutation, env: Env, specs: array<CreateSpec?>, nodes: array<Account?>,
                    mutators: array<Mutator>, driver: Driver, ghost muts: seq<AccountMutation>)
      returns (err: Option<SaveError>)
      requires Unshared(muts, specs[..], nodes[..]) && Wired(muts, mutators[..]) && i < |muts| && m == muts[i]
      requires (forall j | 0 <= j < i :: specs[j] != null) && forall j | i <= j < |muts| :: muts[j].node == null
      modifies specs, nodes, driver, muts[i..], (set s | s in specs[..])`id, (set b | b in builders)`mutation
      ensures Unshared(muts, specs[..], nodes[..]) && Wired(muts, mutators[..])
      ensures specs[..i] == old(specs[..i]) && nodes[..i] == old(nodes[..i])
      ensures forall j | i <= j < |muts| :: muts[j].node == null || muts[j].node == nodes[j]
      ensures
        var was := old(Observed(muts, specs[..], nodes[..], driver));
        var d := was.drafts[i];
        var created := was.Created(i, SpecOf(env.runtime, d, builders[i].conflict), NodeOf(d));
        var behind := Forwarded(env, Plans(), created, i);
        && err == behind.error
        && Observed(muts, specs[..], nodes[..], driver) == if err.Some? then behind.state else behind.state.Finished(i)
      decreases |builders| - i, 0, 2
    {
      err := CreateAndForward(i, m, env, specs, nodes, mutators, driver, muts);
      if err.None? { Finish(i, m, nodes[i], specs[i], muts, specs[..], nodes[..], driver); }
    }

    method CreateAndForward(i: nat, m: AccountMutation, env: Env, specs: array<CreateSpec?>, nodes: array<Account?>,
                            mutators: array<Mutator>, driver: Driver, ghost muts: seq<AccountMutation>)
      returns (err: Option<SaveError>)
      requires Unshared(muts, specs[..], nodes[..]) && Wired(muts, mutators[..]) && i < |muts| && m == muts[i]
      requires (forall j | 0 <= j < i :: specs[j] != null) && forall j | i <= j < |muts| :: muts[j].node == null
      modifies specs, nodes, driver, muts[i + 1..], (set s | s in specs[..])`id, (set b | b in builders)`mutation
      ensures Unshared(muts, specs[..], nodes[..]) && Wired(muts, mutators[..])
      ensures specs[..i] == old(specs[..i]) && nodes[..i] == old(nodes[..i])
      ensures specs[i] != null && nodes[i] != null && fresh(nodes[i])
      ensures forall j | i < j < |muts| :: muts[j].node == null || muts[j].node == nodes[j]
      ensures
        var was := old(Observed(muts, specs[..], nodes[..], driver));
        var d := was.drafts[i];
        var run := Forwarded(env, Plans(), was.Created(i, SpecOf(env.runtime, d, builders[i].conflict), NodeOf(d)), i);
        err == run.error && Observed(muts, specs[..], nodes[..], driver) == run.state
      decreases |builders| - i, 0, 1
    {
      Create(i, builders[i], m, env, specs, nodes, mutators, driver, muts);
      err := Forward(i, env, specs, nodes, mutators, driver, muts);
    }

    /** Sets the mutation of the builder, which is the one it has, and fills its slots. */
    method Create(i: nat, builder: AccountCreate, m: AccountMutation, env: Env, specs: array<CreateSpec?>,
                  nodes: array<Account?>,
                  ghost mutators: array<Mutator>, ghost driver: Driver, ghost muts: seq<AccountMutation>)
      requires Unshared(muts, specs[..], nodes[..]) && Wired(muts, mutators[..]) && i < |muts| && builder == builders[i]
      requires m == muts[i] && m.node == null
      modifies specs, nodes, builder`mutation
      ensures Unshared(muts, specs[..], nodes[..]) && Wired(muts, mutators[..])
      ensures specs[..i] == old(specs[..i]) && nodes[..i] == old(nodes[..i])
      ensures specs[i] != null && nodes[i] != null && fresh(nodes[i])
      ensures forall s | s in specs[..] :: s in old(specs[..]) || fresh(s)
      ensures
        var was: State := old(Observed(muts, specs[..], nodes[..], driver));
        var d := was.drafts[i];
        Observed(muts, specs[..], nodes[..], driver) ==
        was.Created(i, SpecOf(env.runtime, d, builders[i].conflict), NodeOf(d))
    {
      builder.mutation := m;
      Fill(i, builder, env.runtime, specs, nodes, muts, driver);
      forall s | s in specs[..] ensures s in old(specs[..]) || fresh(s) {
        var j :| 0 <= j < specs.Length && specs[..][j] == s;
        assert j != i ==> s == old(specs[..])[j];
      }
    }

    /** Calls the mutator of the next builder, or sends the batch after the last one. */
    method Forward(i: nat, env: Env, specs: array<CreateSpec?>, nodes: array<Account?>, mutators: array<Mutator>,
                   driver: Driver, ghost muts: seq<AccountMutation>)
      returns (err: Option<SaveError>)
      requires Unshared(muts, specs[..], nodes[..]) && Wired(muts, mutators[..]) && i < |muts|
      requires (forall j | 0 <= j <= i :: specs[j] != null) && forall j | i < j < |muts| :: muts[j].node == null
      modifies specs, nodes, driver, muts[i + 1..], (set s | s in specs[..])`id, (set b | b in builders)`mutation
      ensures Unshared(muts, specs[..], nodes[..]) && Wired(muts, mutators[..])
      ensures specs[..i + 1] == old(specs[..i + 1]) && nodes[..i + 1] == old(nodes[..i + 1])
      ensures forall j | i < j < |muts| :: muts[j].node == null || muts[j].node == nodes[j]
      ensures
        var run := Forwarded(env, Plans(), old(Observed(muts, specs[..], nodes[..], driver)), i);
        err == run.error && Observed(muts, specs[..], nodes[..], driver) == run.state
      decreases |builders| - i, 0, 0
    {
      if i < mutators.Length - 1 {
        err := Mutate(mutators[i + 1], builders[i + 1].mutation, env, specs, nodes, mutators, driver, muts, i + 1, 0);
      } else {
        err := Send(specs[..], env.insert, driver, muts, nodes[..]);
      }
    }

    ghost function Mutations(): (muts: seq<AccountMutation>)
      reads builders
      ensures |muts| == |builders|
    {
      seq(|builders|, j requires 0 <= j < |builders| reads builders => builders[j].mutation)
    }

    static method PrepareOne(builder: AccountCreate, runtime: Runtime, ghost filled: Draft)
      requires filled == WithDefaults(runtime, builder.mutation.draft)
      modifies builder.mutation`draft
      ensures builder.mutation.draft == filled
    {
      var dropped := builder.Defaults(runtime);
    }

    /** Fills in the defaults of every builder, dropping their errors, and builds the mutators. */
    method Prepare(runtime: Runtime, mutators: array<Mutator>, ghost muts: seq<AccountMutation>)
      requires muts == Mutations() && mutators.Length == |builders|
      requires forall j, k | 0 <= j < k < |muts| :: muts[j] != muts[k]
      modifies mutators, (set m | m in muts)`draft
      ensures Wired(muts, mutators[..])
      ensures forall j | 0 <= j < |muts| :: muts[j].draft == WithDefaults(runtime, old(muts[j].draft))
    {
      ghost var had := DraftsOf(muts);
      ghost var filled := seq(|muts|, j requires 0 <= j < |muts| == |had| => WithDefaults(runtime, had[j]));
      ghost var wanted := seq(|builders|, j requires 0 <= j < |builders| => Layers(builders[j].hooks, j, 0));
      for i := 0 to |builders|
        invariant forall j | 0 <= j < i :: mutators[j] == wanted[j]
        invariant forall j | 0 <= j < |muts| :: muts[j].draft == if j < i then filled[j] else had[j]
      {
        assert builders[i].mutation == muts[i];
        PrepareOne(builders[i], runtime, filled[i]);
        forall j | 0 <= j < |muts| ensures muts[j].draft == if j <= i then filled[j] else had[j] {
          if j != i { assert muts[j] != muts[i]; }
        }
        var mut := WrapHooks(builders[i].hooks, i);
        mutators[i] := mut;
        assert wanted[i] == mut;
      }
    }

    method Begin(runtime: Runtime, ghost driver: Driver, mutators: array<Mutator>, ghost muts: seq<AccountMutation>,
                 ghost specs: seq<CreateSpec?>, ghost nodes: seq<Account?>)
      requires muts == Mutations() && Unshared(muts, specs, nodes) && mutators.Length == |builders|
      requires forall j | 0 <= j < |muts| ::
        muts[j].node == null && !muts[j].done && specs[j] == null && nodes[j] == null
      modifies mutators, driver`trace, (set m | m in muts)`draft
      ensures Wired(muts, mutators[..])
      ensures Observed(muts, specs, nodes, driver) == Start(runtime, old(DraftsOf(muts)), driver.batches)
    {
      driver.trace := [];
      Prepare(runtime, mutators, muts);
    }

    /** Prepares the builders and calls the first mutator, if there is one. */
    method Run(env: Env, driver: Driver, specs: array<CreateSpec?>, nodes: array<Account?>,
               ghost muts: seq<AccountMutation>)
      returns (failed: Option<SaveError>)
      requires muts == Mutations() && Unshared(muts, specs[..], nodes[..])
      requires forall j | 0 <= j < |muts| ::
        muts[j].node == null && !muts[j].done && specs[j] == null && nodes[j] == null
      modifies specs, nodes, driver, (set m | m in muts), (set b | b in builders)`mutation
      ensures Mutations() == muts && |nodes[..]| == |muts|
      ensures forall j | 0 <= j < |muts| :: muts[j].node == null || muts[j].node == nodes[j]
      ensures
        var run := Saved(env, Plans(), old(DraftsOf(muts)), old(driver.batches));
        && failed == run.error && |specs[..]| == |muts|
        && Observed(muts, specs[..], nodes[..], driver) == run.state
    {
      var mutators := new Mutator[|builders|](_ => Base(0));
      Begin(env.runtime, driver, mutators, muts, specs[..], nodes[..]);
      failed := None;
      if mutators.Length > 0 {
        failed := Mutate(mutators[0], builders[0].mutation, env, specs, nodes, mutators, driver, muts, 0, 0);
      }
    }

    /** Saves all builders with one insert. Builders must not share mutations or have been saved. */
    method Save(env: Env, driver: Driver) returns (r: Result<seq<Account?>, SaveError>)
      requires forall j, k | 0 <= j < k < |builders| :: builders[j].mutation != builders[k].mutation
      requires forall j | 0 <= j < |builders| :: builders[j].mutation.node == null && !builders[j].mutation.done
      modifies driver, (set m | m in Mutations()), (set b | b in builders)`mutation
      ensures Mutations() == old(Mutations())
      ensures err.Some? ==>
        && r == Failure(err.value) && driver.batches == old(driver.batches)
        && DraftsOf(Mutations()) == old(DraftsOf(Mutations()))
      ensures err.None? ==>
        SavedAs(Saved(env, Plans(), old(DraftsOf(Mutations())), old(driver.batches)), Mutations(), r, driver)
    {
      match err {
        case Some(e) => return Failure(e);
        case None => r := SaveBuilders(env, driver);
      }
    }

    method SaveBuilders(env: Env, driver: Driver) returns (r: Result<seq<Account?>, SaveError>)
      requires forall j, k | 0 <= j < k < |builders| :: builders[j].mutation != builders[k].mutation
      requires forall j | 0 <= j < |builders| :: builders[j].mutation.node == null && !builders[j].mutation.done
      modifies driver, (set m | m in Mutations()), (set b | b in builders)`mutation
      ensures Mutations() == old(Mutations())
      ensures SavedAs(Saved(env, Plans(), old(DraftsOf(Mutations())), old(driver.batches)), Mutations(), r, driver)
    {
      ghost var muts := Mutations();
      ghost var run := Saved(env, Plans(), DraftsOf(muts), driver.batches);
      var specs := new CreateSpec?[|builders|](_ => null);
      var nodes := new Account?[|builders|](_ => null);
      var failed := Run(env, driver, specs, nodes, muts);
      r := match failed case Some(e) => Failure(e) case None => Success(nodes[..]);
      ObservedIsSaved(run, muts, specs[..], nodes[..], r, driver);
    }
  }

  /** The end-to-end statement for a list that is not empty, with hooks that call through once and pass
      errors and successes on: either one insert with the spec of every builder in its place, every
      mutation done and every node the row its builder makes, or an error and nothing done. */
  method SaveAllOrNothing(bulk: AccountCreateBulk, env: Env, driver: Driver)
    returns (r: Result<seq<Account?>, SaveError>)
    requires bulk.err == None && |bulk.builders| > 0 && AllHonest(bulk.Plans()) && AllLenient(bulk.Plans())
    requires forall j, k | 0 <= j < k < |bulk.builders| :: bulk.builders[j].mutation != bulk.builders[k].mutation
    requires forall j | 0 <= j < |bulk.builders| ::
      bulk.builders[j].mutation.node == null && !bulk.builders[j].mutation.done
    modifies driver, (set m | m in bulk.Mutations()), (set b | b in bulk.builders)`mutation
    ensures
      var plans, drafts, muts := bulk.Plans(), old(DraftsOf(bulk.Mutations())), bulk.Mutations();
      && (r.Success? <==> Accepted(env, plans, drafts))
      && (forall j | 0 <= j < |plans| :: muts[j].done <==> Accepted(env, plans, drafts))
      && driver.batches ==
         old(driver.batches) + (if AllPrepared(env, plans, drafts) then [EachSpec(env, plans, drafts)] else [])
      && (r.Success? ==> |r.value| == |plans| && forall j | 0 <= j < |plans| ::
            && r.value[j] != null && muts[j].node == r.value[j]
            && r.value[j].Row().(id := 0) == NodeOf(Outcomes.Prepared(env, plans[j], drafts[j]).value))
  {
    ghost var plans, drafts, batches := bulk.Plans(), DraftsOf(bulk.Mutations()), driver.batches;
    AllOrNothing(env, plans, drafts, batches);
    InsertsExactlyOnce(env, plans, drafts, batches);
    if Accepted(env, plans, drafts) { AllDone(env, plans, drafts, batches); }
    r := bulk.Save(env, driver);
  }
}
