/** A bulk save as a state machine: a chain of mutators, each wrapped in the hooks of its builder,
    that nests until the last one inserts the whole batch and then finishes from the inside out. */
module Bulk {
  import opened Wrappers
  import opened Schema
  import opened Drafts

  /** A hook that keeps to the mutation it was given: it may edit what the mutation carries and call
      the next mutator once, or fail instead of calling it; then it may change the error. */
  datatype Hook = Hook(edit: Draft -> Result<Draft, SaveError>, after: Option<SaveError> -> Option<SaveError>)

  datatype Insert = Inserted(ids: nat -> Option<int>) | NotInserted(error: SaveError)

  /** The package variables, and what the database answers to a batch. */
  datatype Env = Env(runtime: Runtime, insert: seq<Spec> -> Insert)

  /** The part of a builder that a save does not change. */
  datatype Plan = Plan(hooks: seq<Hook>, conflict: seq<string>)

  datatype Event = Enter(builder: nat, hook: nat) | Exit(builder: nat, hook: nat) | Insertion | Done(builder: nat)

  /** What a bulk save works on, position by position. */
  datatype State = State(
    drafts: seq<Draft>,
    done: seq<bool>,
    linked: seq<bool>,
    specs: seq<Option<Spec>>,
    ids: seq<Option<int>>,
    nodes: seq<Option<AccountRow>>,
    batches: seq<seq<Spec>>,
    trace: seq<Event>)
  {
    predicate Sized(n: nat) {
      |drafts| == |done| == |linked| == |specs| == |ids| == |nodes| == n
    }

    function Log(e: Event): State { this.(trace := trace + [e]) }

    function Edited(i: nat, d: Draft): State
      requires i < |drafts|
    {
      this.(drafts := drafts[i := d])
    }

    /** createSpec: the node and the spec of one builder. */
    function Created(i: nat, spec: Spec, node: AccountRow): State
      requires i < |specs| == |nodes| == |ids|
    {
      this.(specs := specs[i := Some(spec)], nodes := nodes[i := Some(node)], ids := ids[i := None])
    }

    /** The whole batch is sent to the database, which fills in the ids if it accepts it. */
    function Sent(insert: Insert): State {
      this.(
        batches := batches + [Batch(specs)],
        ids := if insert.Inserted? then seq(|ids|, i requires 0 <= i < |ids| => insert.ids(i)) else ids,
        trace := trace + [Insertion])
    }

    /** The mutation learns its id and is done. */
    function Finished(i: nat): State
      requires i < |done| == |linked| == |nodes| == |ids|
    {
      this.(
        linked := linked[i := true],
        nodes := if nodes[i].None? || ids[i].None? then nodes
                 else nodes[i := Some(nodes[i].value.(id := ids[i].value))],
        done := done[i := true],
        trace := trace + [Done(i)])
    }
  }

  function Batch(specs: seq<Option<Spec>>): seq<Spec> {
    if specs == [] then []
    else (if specs[0].Some? then [specs[0].value] else []) + Batch(specs[1..])
  }

  /** What calling a mutator leaves behind, and the error it returns. */
  datatype Run = Run(state: State, error: Option<SaveError>)

  /** Calling the mutator of builder i, from its k-th hook inwards. */
  function Mutated(env: Env, plans: seq<Plan>, s: State, i: nat, k: nat): (r: Run)
    requires i < |plans| && s.Sized(|plans|) && k <= |plans[i].hooks|
    ensures r.state.Sized(|plans|)
    decreases |plans| - i, 1 + |plans[i].hooks| - k
  {
    if k < |plans[i].hooks| then
      var hook := plans[i].hooks[k];
      match hook.edit(s.drafts[i])
      case Failure(e) => Run(s.Log(Enter(i, k)).Log(Exit(i, k)), Some(e))
      case Success(d) =>
        var inner := Mutated(env, plans, s.Log(Enter(i, k)).Edited(i, d), i, k + 1);
        Run(inner.state.Log(Exit(i, k)), hook.after(inner.error))
    else
      var failed := CheckError(env.runtime, s.drafts[i]);
      if failed.Some? then Run(s, failed)
      else
        var spec, node := SpecOf(env.runtime, s.drafts[i], plans[i].conflict), NodeOf(s.drafts[i]);
        var behind := Forwarded(env, plans, s.Created(i, spec, node), i);
        if behind.error.Some? then behind else Run(behind.state.Finished(i), None)
  }

  /** The next mutator, or the insertion after the last one. */
  function Forwarded(env: Env, plans: seq<Plan>, s: State, i: nat): (r: Run)
    requires i < |plans| && s.Sized(|plans|)
    ensures r.state.Sized(|plans|)
    decreases |plans| - i, 0
  {
    if i + 1 < |plans| then Mutated(env, plans, s, i + 1, 0)
    else
      var insert := env.insert(Batch(s.specs));
      Run(s.Sent(insert), InsertError(insert))
  }

  function WithDefaults(runtime: Runtime, d: Draft): Draft { d.(fields := Defaults(runtime, d).fields) }

  /** The state in which the first mutator is called: defaults are filled in, their errors dropped. */
  function Start(runtime: Runtime, drafts: seq<Draft>, batches: seq<seq<Spec>>): (s: State)
    ensures s.Sized(|drafts|)
  {
    var n := |drafts|;
    State(
      seq(n, i requires 0 <= i < n => WithDefaults(runtime, drafts[i])),
      seq(n, i => false), seq(n, i => false), seq(n, i => None), seq(n, i => None), seq(n, i => None), batches, [])
  }

  /** A whole bulk save. */
  function Saved(env: Env, plans: seq<Plan>, drafts: seq<Draft>, batches: seq<seq<Spec>>): (r: Run)
    requires |plans| == |drafts|
    ensures r.state.Sized(|plans|)
  {
    var s := Start(env.runtime, drafts, batches);
    if plans == [] then Run(s, None) else Mutated(env, plans, s, 0, 0)
  }

  // ----- one builder at a time -----

  /** What the hooks make of a draft, one after the other. */
  function EditAll(hooks: seq<Hook>, k: nat, d: Draft): Result<Draft, SaveError>
    requires k <= |hooks|
    decreases |hooks| - k
  {
    if k == |hooks| then Success(d)
    else
      match hooks[k].edit(d)
      case Failure(e) => Failure(e)
      case Success(next) => EditAll(hooks, k + 1, next)
  }

  /** The error that comes out of the hooks when this one goes in. */
  function AfterAll(hooks: seq<Hook>, k: nat, error: Option<SaveError>): Option<SaveError>
    requires k <= |hooks|
    decreases |hooks| - k
  {
    if k == |hooks| then error else hooks[k].after(AfterAll(hooks, k + 1, error))
  }

  /** What a single builder makes of a draft that has its defaults, from its k-th hook inwards. */
  function BuiltFrom(env: Env, plan: Plan, d: Draft, k: nat): Result<Draft, SaveError>
    requires k <= |plan.hooks|
  {
    match EditAll(plan.hooks, k, d)
    case Failure(e) => Failure(e)
    case Success(edited) =>
      var error := CheckError(env.runtime, edited);
      if error.Some? then Failure(error.value) else Success(edited)
  }

  /** Every mutator from the k-th hook of builder i on gets as far as its own createSpec. */
  ghost predicate AllBuilt(env: Env, plans: seq<Plan>, s: State, i: nat, k: nat)
    requires i < |plans| && s.Sized(|plans|) && k <= |plans[i].hooks|
  {
    && BuiltFrom(env, plans[i], s.drafts[i], k).Success?
    && forall j | i < j < |plans| :: BuiltFrom(env, plans[j], s.drafts[j], 0).Success?
  }

  /** The draft that builder j ends up with. */
  ghost function FinalDraft(env: Env, plans: seq<Plan>, s: State, i: nat, k: nat, j: nat): Draft
    requires i <= j < |plans| && s.Sized(|plans|) && k <= |plans[i].hooks| && AllBuilt(env, plans, s, i, k)
  {
    BuiltFrom(env, plans[j], s.drafts[j], if j == i then k else 0).value
  }

  /** What comes back to builder i from the mutator behind it, if the batch insert answers `error`. */
  ghost function ErrorBehind(plans: seq<Plan>, i: nat, error: Option<SaveError>): Option<SaveError>
    requires i < |plans|
    decreases |plans| - i
  {
    if i + 1 == |plans| then error else AfterAll(plans[i + 1].hooks, 0, ErrorBehind(plans, i + 1, error))
  }

  function InsertError(insert: Insert): Option<SaveError> {
    if insert.NotInserted? then Some(insert.error) else None
  }

  // ----- what a mutator leaves alone -----

  ghost predicate SameBefore(s: State, t: State, i: nat)
    requires i <= |s.drafts| && s.Sized(|s.drafts|) && t.Sized(|s.drafts|)
  {
    && t.drafts[..i] == s.drafts[..i] && t.done[..i] == s.done[..i] && t.linked[..i] == s.linked[..i]
    && t.specs[..i] == s.specs[..i] && t.nodes[..i] == s.nodes[..i]
    && s.batches <= t.batches && s.trace <= t.trace
  }

  lemma {:induction false} MutatedKeepsBefore(env: Env, plans: seq<Plan>, s: State, i: nat, k: nat)
    requires i < |plans| && s.Sized(|plans|) && k <= |plans[i].hooks|
    ensures SameBefore(s, Mutated(env, plans, s, i, k).state, i)
    decreases |plans| - i, 1 + |plans[i].hooks| - k
  {
    if k < |plans[i].hooks| {
      var edited := plans[i].hooks[k].edit(s.drafts[i]);
      if edited.Success? { MutatedKeepsBefore(env, plans, s.Log(Enter(i, k)).Edited(i, edited.value), i, k + 1); }
    } else if CheckError(env.runtime, s.drafts[i]).None? {
      var spec, node := SpecOf(env.runtime, s.drafts[i], plans[i].conflict), NodeOf(s.drafts[i]);
      ForwardedKeepsBefore(env, plans, s.Created(i, spec, node), i);
      BuilderKeepsBefore(s, i, spec, node, Forwarded(env, plans, s.Created(i, spec, node), i).state);
    }
  }

  lemma BuilderKeepsBefore(s: State, i: nat, spec: Spec, node: AccountRow, t: State)
    requires s.Sized(|s.drafts|) && t.Sized(|s.drafts|) && i < |s.drafts|
    requires SameBefore(s.Created(i, spec, node), t, i + 1)
    ensures SameBefore(s, t, i) && SameBefore(s, t.Finished(i), i)
  {
    var c := s.Created(i, spec, node);
    assert c.drafts[..i] == c.drafts[..i + 1][..i] && c.done[..i] == c.done[..i + 1][..i];
    assert c.linked[..i] == c.linked[..i + 1][..i];
    assert c.specs[..i] == c.specs[..i + 1][..i] && c.nodes[..i] == c.nodes[..i + 1][..i];
    assert t.drafts[..i] == t.drafts[..i + 1][..i] && t.done[..i] == t.done[..i + 1][..i];
    assert t.linked[..i] == t.linked[..i + 1][..i];
    assert t.specs[..i] == t.specs[..i + 1][..i] && t.nodes[..i] == t.nodes[..i + 1][..i];
  }

  lemma {:induction false} ForwardedKeepsBefore(env: Env, plans: seq<Plan>, s: State, i: nat)
    requires i < |plans| && s.Sized(|plans|)
    ensures SameBefore(s, Forwarded(env, plans, s, i).state, i + 1)
    decreases |plans| - i, 0
  {
    if i + 1 < |plans| { MutatedKeepsBefore(env, plans, s, i + 1, 0); }
  }

  // ----- when every builder passes -----

  /** What a finished save leaves at one position, if `undisturbed` says whether no error came back to
      the mutator there: everything is what the builder at that position makes on its own, and the
      mutation is done, and its node has the id of its spec, exactly if no error came back. */
  predicate Settled(runtime: Runtime, conflict: seq<string>, d: Draft, s: State, t: State, j: nat, undisturbed: bool)
    requires s.Sized(|s.drafts|) && t.Sized(|s.drafts|) && j < |s.drafts|
  {
    && t.drafts[j] == d
    && t.specs[j] == Some(SpecOf(runtime, d, conflict))
    && t.nodes[j] == Some(NodeOf(d).(id := if undisturbed && t.ids[j].Some? then t.ids[j].value else 0))
    && t.done[j] == (s.done[j] || undisturbed)
    && t.linked[j] == (s.linked[j] || undisturbed)
  }

  /** The batch was sent once, with every spec, and every position is settled. */
  ghost predicate SentOnce(env: Env, plans: seq<Plan>, s: State, t: State, i: nat, k: nat)
    requires i < |plans| && s.Sized(|plans|) && t.Sized(|plans|) && k <= |plans[i].hooks|
    requires AllBuilt(env, plans, s, i, k)
  {
    var insert := env.insert(Batch(t.specs));
    && t.batches == s.batches + [Batch(t.specs)]
    && IDsAnswered(insert, s.ids, t.ids, i)
    && forall j | i <= j < |plans| :: SettledAt(env, plans, s, t, i, k, j)
  }

  ghost predicate SettledAt(env: Env, plans: seq<Plan>, s: State, t: State, i: nat, k: nat, j: nat)
    requires i <= j < |plans| && s.Sized(|plans|) && t.Sized(|plans|) && k <= |plans[i].hooks|
    requires AllBuilt(env, plans, s, i, k)
  {
    Settled(env.runtime, plans[j].conflict, FinalDraft(env, plans, s, i, k, j), s, t, j,
            ErrorBehind(plans, j, InsertError(env.insert(Batch(t.specs)))).None?)
  }

  predicate IDsAnswered(insert: Insert, before: seq<Option<int>>, after: seq<Option<int>>, i: nat)
    requires |before| == |after|
  {
    forall j | 0 <= j < |after| ::
      after[j] == if insert.Inserted? then insert.ids(j) else if j < i then before[j] else None
  }

  lemma {:induction false} WhenBuilt(env: Env, plans: seq<Plan>, s: State, i: nat, k: nat)
    requires i < |plans| && s.Sized(|plans|) && k <= |plans[i].hooks| && AllBuilt(env, plans, s, i, k)
    ensures
      var r := Mutated(env, plans, s, i, k);
      && SentOnce(env, plans, s, r.state, i, k)
      && r.error == AfterAll(plans[i].hooks, k, ErrorBehind(plans, i, InsertError(env.insert(Batch(r.state.specs)))))
    decreases |plans| - i, 1 + |plans[i].hooks| - k
  {
    if k < |plans[i].hooks| {
      var d := plans[i].hooks[k].edit(s.drafts[i]).value;
      var s1 := s.Log(Enter(i, k)).Edited(i, d);
      assert AllBuilt(env, plans, s1, i, k + 1);
      WhenBuilt(env, plans, s1, i, k + 1);
      var t1 := Mutated(env, plans, s1, i, k + 1).state;
      forall j | i <= j < |plans| ensures SettledAt(env, plans, s, t1.Log(Exit(i, k)), i, k, j) {
        assert SettledAt(env, plans, s1, t1, i, k + 1, j);
      }
      assert Mutated(env, plans, s, i, k).state == t1.Log(Exit(i, k));
    } else {
      WhenBaseBuilt(env, plans, s, i);
    }
  }

  lemma {:induction false} WhenBaseBuilt(env: Env, plans: seq<Plan>, s: State, i: nat)
    requires i < |plans| && s.Sized(|plans|) && AllBuilt(env, plans, s, i, |plans[i].hooks|)
    ensures
      var r := Mutated(env, plans, s, i, |plans[i].hooks|);
      && SentOnce(env, plans, s, r.state, i, |plans[i].hooks|)
      && r.error == ErrorBehind(plans, i, InsertError(env.insert(Batch(r.state.specs))))
    decreases |plans| - i, 0
  {
    var spec, node := SpecOf(env.runtime, s.drafts[i], plans[i].conflict), NodeOf(s.drafts[i]);
    var s1 := s.Created(i, spec, node);
    var behind := Forwarded(env, plans, s1, i);
    WhenForwarded(env, plans, s1, i);
    var t := if behind.error.Some? then behind.state else behind.state.Finished(i);
    assert Settled(env.runtime, plans[i].conflict, s.drafts[i], s, t, i, behind.error.None?);
    forall j | i < j < |plans| ensures SettledAt(env, plans, s, t, i, |plans[i].hooks|, j) {
      assert SettledAt(env, plans, s1, behind.state, i + 1, 0, j);
    }
  }

  /** What the mutators behind builder i leave, when builder i has filled in its own spec and node. */
  lemma {:induction false} WhenForwarded(env: Env, plans: seq<Plan>, s: State, i: nat)
    requires i < |plans| && s.Sized(|plans|) && (i + 1 < |plans| ==> AllBuilt(env, plans, s, i + 1, 0))
    ensures
      var t := Forwarded(env, plans, s, i).state;
      var insert := env.insert(Batch(t.specs));
      && t.drafts[i] == s.drafts[i] && t.specs[i] == s.specs[i] && t.nodes[i] == s.nodes[i]
      && t.done[i] == s.done[i] && t.linked[i] == s.linked[i]
      && t.batches == s.batches + [Batch(t.specs)] && IDsAnswered(insert, s.ids, t.ids, i + 1)
      && Forwarded(env, plans, s, i).error == ErrorBehind(plans, i, InsertError(insert))
      && (i + 1 < |plans| ==> SentOnce(env, plans, s, t, i + 1, 0))
    decreases |plans| - i, 0, 0
  {
    if i + 1 < |plans| {
      WhenBuilt(env, plans, s, i + 1, 0);
      MutatedKeepsBefore(env, plans, s, i + 1, 0);
      var t := Mutated(env, plans, s, i + 1, 0).state;
      assert t.specs[i] == t.specs[..i + 1][i] && t.nodes[i] == t.nodes[..i + 1][i];
      assert t.drafts[i] == t.drafts[..i + 1][i];
      assert t.done[i] == t.done[..i + 1][i] && t.linked[i] == t.linked[..i + 1][i];
    }
  }

  // ----- when some builder does not pass -----

  /** The error with which a builder that does not pass comes back, from its k-th hook inwards: what its
      hooks make of the error of the hook or check that stopped it. */
  function Stopped(env: Env, plan: Plan, d: Draft, k: nat): Option<SaveError>
    requires k <= |plan.hooks| && BuiltFrom(env, plan, d, k).Failure?
    decreases |plan.hooks| - k
  {
    if k == |plan.hooks| then CheckError(env.runtime, d)
    else
      match plan.hooks[k].edit(d)
      case Failure(e) => Some(e)
      case Success(next) => plan.hooks[k].after(Stopped(env, plan, next, k + 1))
  }

  /** The draft as the last hook that did not fail has it. */
  function LastEdit(hooks: seq<Hook>, k: nat, d: Draft): Draft
    requires k <= |hooks|
    decreases |hooks| - k
  {
    if k == |hooks| || hooks[k].edit(d).Failure? then d else LastEdit(hooks, k + 1, hooks[k].edit(d).value)
  }

  /** What builder j makes of its draft when the mutator of builder i is called from its k-th hook on. */
  ghost function BuiltAt(env: Env, plans: seq<Plan>, s: State, i: nat, k: nat, j: nat): Result<Draft, SaveError>
    requires i <= j < |plans| && s.Sized(|plans|) && k <= |plans[i].hooks|
  {
    BuiltFrom(env, plans[j], s.drafts[j], if j == i then k else 0)
  }

  /** Builder f is the first from builder i on that does not pass. */
  ghost predicate StopsAt(env: Env, plans: seq<Plan>, s: State, i: nat, k: nat, f: nat)
    requires i < |plans| && s.Sized(|plans|) && k <= |plans[i].hooks|
  {
    && i <= f < |plans| && BuiltAt(env, plans, s, i, k, f).Failure?
    && forall j | i <= j < f :: BuiltAt(env, plans, s, i, k, j).Success?
  }

  /** Nothing but the draft may differ at a position. */
  predicate SameAt(s: State, t: State, j: nat)
    requires s.Sized(|s.drafts|) && t.Sized(|s.drafts|) && j < |s.drafts|
  {
    && t.done[j] == s.done[j] && t.linked[j] == s.linked[j]
    && t.specs[j] == s.specs[j] && t.ids[j] == s.ids[j] && t.nodes[j] == s.nodes[j]
  }

  /** What a run leaves at one position if builder f stops it: a builder before f is settled as its own
      hooks and check have it, but gets no id; nothing but the draft of builder f changes from f on. */
  ghost predicate LeftAt(env: Env, plans: seq<Plan>, s: State, t: State, i: nat, k: nat, f: nat,
                         answer: Option<SaveError>, j: nat)
    requires i < |plans| && s.Sized(|plans|) && t.Sized(|plans|) && k <= |plans[i].hooks|
    requires StopsAt(env, plans, s, i, k, f)
    requires j < |plans|
  {
    if i <= j < f then
      && t.ids[j] == None
      && Settled(env.runtime, plans[j].conflict, BuiltAt(env, plans, s, i, k, j).value, s, t, j,
                 ErrorBehind(plans[..f], j, answer).None?)
    else
      && SameAt(s, t, j)
      && t.drafts[j] == if j == f then LastEdit(plans[f].hooks, if f == i then k else 0, s.drafts[f]) else s.drafts[j]
  }

  /** If some builder does not pass, the database is not asked. To the builders before it, the error with
      which it comes back is what a refusal of the database is to a batch that ends before it. */
  lemma {:induction false} WhenStopped(env: Env, plans: seq<Plan>, s: State, i: nat, k: nat, f: nat)
    requires i < |plans| && s.Sized(|plans|) && k <= |plans[i].hooks| && StopsAt(env, plans, s, i, k, f)
    ensures
      var r, answer := Mutated(env, plans, s, i, k), Stopped(env, plans[f], s.drafts[f], if f == i then k else 0);
      && r.state.batches == s.batches
      && r.error == (if f == i then answer else AfterAll(plans[i].hooks, k, ErrorBehind(plans[..f], i, answer)))
      && forall j | 0 <= j < |plans| :: LeftAt(env, plans, s, r.state, i, k, f, answer, j)
    decreases |plans| - i, 1 + |plans[i].hooks| - k
  {
    var answer := Stopped(env, plans[f], s.drafts[f], if f == i then k else 0);
    var t := Mutated(env, plans, s, i, k).state;
    if k < |plans[i].hooks| {
      var edited := plans[i].hooks[k].edit(s.drafts[i]);
      if edited.Failure? {
        assert BuiltAt(env, plans, s, i, k, i).Failure?;
        assert f == i;
      } else {
        var s1 := s.Log(Enter(i, k)).Edited(i, edited.value);
        var h := k + 1;
        forall j | i <= j < |plans| ensures BuiltAt(env, plans, s1, i, h, j) == BuiltAt(env, plans, s, i, k, j) {}
        assert BuiltAt(env, plans, s1, i, h, f).Failure?;
        WhenStopped(env, plans, s1, i, h, f);
        var t1 := Mutated(env, plans, s1, i, h).state;
        var answer1 := Stopped(env, plans[f], s1.drafts[f], if f == i then h else 0);
        forall j | 0 <= j < |plans| ensures LeftAt(env, plans, s, t, i, k, f, answer, j) {
          assert LeftAt(env, plans, s1, t1, i, h, f, answer1, j);
        }
      }
    } else if CheckError(env.runtime, s.drafts[i]).Some? {
      assert BuiltAt(env, plans, s, i, k, i).Failure?;
      assert f == i;
    } else {
      WhenNextStopped(env, plans, s, i, f);
    }
  }

  /** The same for a builder that passes its check in front of one that does not pass. */
  lemma {:induction false} WhenNextStopped(env: Env, plans: seq<Plan>, s: State, i: nat, f: nat)
    requires i < |plans| && s.Sized(|plans|) && StopsAt(env, plans, s, i, |plans[i].hooks|, f)
    requires CheckError(env.runtime, s.drafts[i]).None?
    ensures i < f
    ensures
      var k := |plans[i].hooks|;
      var r, answer := Mutated(env, plans, s, i, k), Stopped(env, plans[f], s.drafts[f], 0);
      && r.state.batches == s.batches && r.error == ErrorBehind(plans[..f], i, answer)
      && forall j | 0 <= j < |plans| :: LeftAt(env, plans, s, r.state, i, k, f, answer, j)
    decreases |plans| - i, 0
  {
    var k := |plans[i].hooks|;
    var answer := Stopped(env, plans[f], s.drafts[f], 0);
    var s1 := s.Created(i, SpecOf(env.runtime, s.drafts[i], plans[i].conflict), NodeOf(s.drafts[i]));
    var n := i + 1;
    assert BuiltAt(env, plans, s, i, k, i) == Success(s.drafts[i]);
    forall j | i < j < |plans| ensures BuiltAt(env, plans, s1, n, 0, j) == BuiltAt(env, plans, s, i, k, j) {}
    assert BuiltAt(env, plans, s1, n, 0, f).Failure?;
    WhenStopped(env, plans, s1, n, 0, f);
    var behind := Mutated(env, plans, s1, n, 0);
    assert LeftAt(env, plans, s1, behind.state, n, 0, f, answer, i);
    var t := if behind.error.Some? then behind.state else behind.state.Finished(i);
    forall j | 0 <= j < |plans| ensures LeftAt(env, plans, s, t, i, k, f, answer, j) {
      assert LeftAt(env, plans, s1, behind.state, n, 0, f, answer, j);
    }
  }

  // ----- errors through hooks -----

  /** A hook that never turns an error into a success. */
  ghost predicate Honest(hook: Hook) { forall e: Option<SaveError> | e.Some? :: hook.after(e).Some? }

  /** A hook that never turns a success into an error. */
  predicate Lenient(hook: Hook) { hook.after(None) == None }

  ghost predicate AllHonest(plans: seq<Plan>) {
    forall j, h | 0 <= j < |plans| && 0 <= h < |plans[j].hooks| :: Honest(plans[j].hooks[h])
  }

  ghost predicate AllLenient(plans: seq<Plan>) {
    forall j, h | 0 <= j < |plans| && 0 <= h < |plans[j].hooks| :: Lenient(plans[j].hooks[h])
  }

  lemma {:induction false} HonestAfter(hooks: seq<Hook>, k: nat, e: SaveError)
    requires k <= |hooks| && forall h | 0 <= h < |hooks| :: Honest(hooks[h])
    ensures AfterAll(hooks, k, Some(e)).Some?
    decreases |hooks| - k
  {
    if k < |hooks| {
      HonestAfter(hooks, k + 1, e);
      assert Honest(hooks[k]);
    }
  }

  lemma {:induction false} LenientAfter(hooks: seq<Hook>, k: nat)
    requires k <= |hooks| && forall h | 0 <= h < |hooks| :: Lenient(hooks[h])
    ensures AfterAll(hooks, k, None) == None
    decreases |hooks| - k
  {
    if k < |hooks| {
      LenientAfter(hooks, k + 1);
      assert Lenient(hooks[k]);
    }
  }

  lemma {:induction false} HonestBehind(plans: seq<Plan>, i: nat, e: SaveError)
    requires i < |plans| && AllHonest(plans)
    ensures ErrorBehind(plans, i, Some(e)).Some?
    decreases |plans| - i
  {
    if i + 1 < |plans| {
      HonestBehind(plans, i + 1, e);
      HonestAfter(plans[i + 1].hooks, 0, ErrorBehind(plans, i + 1, Some(e)).value);
    }
  }

  lemma {:induction false} LenientBehind(plans: seq<Plan>, i: nat)
    requires i < |plans| && AllLenient(plans)
    ensures ErrorBehind(plans, i, None) == None
    decreases |plans| - i
  {
    if i + 1 < |plans| {
      LenientBehind(plans, i + 1);
      LenientAfter(plans[i + 1].hooks, 0);
    }
  }

  lemma {:induction false} BatchOfAll(specs: seq<Option<Spec>>, all: seq<Spec>)
    requires |specs| == |all| && forall j | 0 <= j < |all| :: specs[j] == Some(all[j])
    ensures Batch(specs) == all
  {
    if specs == [] {
    } else {
      BatchOfAll(specs[1..], all[1..]);
    }
  }
}
