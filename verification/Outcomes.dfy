/** What a whole bulk save comes to, whatever its hooks do: which mutations end up done, what was sent and
    what is returned, in terms of each builder on its own. */
module Outcomes {
  import opened Wrappers
  import opened Drafts
  import opened Bulk

  // ----- each builder on its own -----

  /** The draft that a builder ends up with on its own, or why it does not pass. */
  function Prepared(env: Env, plan: Plan, d: Draft): Result<Draft, SaveError> {
    BuiltFrom(env, plan, WithDefaults(env.runtime, d), 0)
  }

  ghost predicate AllPrepared(env: Env, plans: seq<Plan>, drafts: seq<Draft>)
    requires |plans| == |drafts|
  {
    forall j | 0 <= j < |plans| :: Prepared(env, plans[j], drafts[j]).Success?
  }

  /** The specs of the builders, each made on its own. */
  ghost function EachSpec(env: Env, plans: seq<Plan>, drafts: seq<Draft>): seq<Spec>
    requires |plans| == |drafts| && AllPrepared(env, plans, drafts)
  {
    seq(|plans|, j requires 0 <= j < |plans| =>
      SpecOf(env.runtime, Prepared(env, plans[j], drafts[j]).value, plans[j].conflict))
  }

  /** How many builders pass before the first that does not. */
  ghost function Passing(env: Env, plans: seq<Plan>, drafts: seq<Draft>): (f: nat)
    requires |plans| == |drafts|
    ensures f <= |plans|
    ensures forall j | 0 <= j < f :: Prepared(env, plans[j], drafts[j]).Success?
    ensures f < |plans| ==> Prepared(env, plans[f], drafts[f]).Failure?
  {
    PassingFrom(env, plans, drafts, 0)
  }

  ghost function PassingFrom(env: Env, plans: seq<Plan>, drafts: seq<Draft>, i: nat): (f: nat)
    requires i <= |plans| == |drafts|
    ensures i <= f <= |plans|
    ensures forall j | i <= j < f :: Prepared(env, plans[j], drafts[j]).Success?
    ensures f < |plans| ==> Prepared(env, plans[f], drafts[f]).Failure?
    decreases |plans| - i
  {
    if i == |plans| || Prepared(env, plans[i], drafts[i]).Failure? then i
    else PassingFrom(env, plans, drafts, i + 1)
  }

  /** What the builders that pass are up against: the database, or the error with which the first builder
      that does not pass comes back. */
  ghost function Answer(env: Env, plans: seq<Plan>, drafts: seq<Draft>): Option<SaveError>
    requires |plans| == |drafts|
  {
    var f := Passing(env, plans, drafts);
    if f < |plans| then Stopped(env, plans[f], WithDefaults(env.runtime, drafts[f]), 0)
    else InsertError(env.insert(EachSpec(env, plans, drafts)))
  }

  /** What comes back to the mutator of a builder that passes: the answer, through the hooks in between. */
  ghost function Heard(env: Env, plans: seq<Plan>, drafts: seq<Draft>, j: nat): Option<SaveError>
    requires |plans| == |drafts| && j < Passing(env, plans, drafts)
  {
    ErrorBehind(plans[..Passing(env, plans, drafts)], j, Answer(env, plans, drafts))
  }

  /** The id that the database gives to the spec of builder j. */
  ghost function GivenID(env: Env, plans: seq<Plan>, drafts: seq<Draft>, j: nat): Option<int>
    requires |plans| == |drafts|
  {
    if !AllPrepared(env, plans, drafts) then None
    else
      match env.insert(EachSpec(env, plans, drafts))
      case Inserted(ids) => ids(j)
      case NotInserted(_) => None
  }

  // ----- the whole save -----

  /** The position of a builder that passes: its own draft, spec and node, done and with its id exactly if
      what comes back to its mutator is not an error. */
  ghost predicate MadeAt(env: Env, plans: seq<Plan>, drafts: seq<Draft>, t: State, j: nat)
    requires |plans| == |drafts| && t.Sized(|plans|) && j < Passing(env, plans, drafts)
  {
    var d, heard := Prepared(env, plans[j], drafts[j]).value, Heard(env, plans, drafts, j);
    var id := GivenID(env, plans, drafts, j);
    && t.drafts[j] == d && t.specs[j] == Some(SpecOf(env.runtime, d, plans[j].conflict))
    && t.done[j] == t.linked[j] == heard.None? && t.ids[j] == id
    && t.nodes[j] == Some(NodeOf(d).(id := if heard.None? && id.Some? then id.value else 0))
  }

  /** The position of a builder that does not get as far as createSpec: the first that does not pass has the
      draft that its hooks left, and those behind it have their defaults and no more. */
  ghost predicate UntouchedAt(env: Env, plans: seq<Plan>, drafts: seq<Draft>, t: State, j: nat)
    requires |plans| == |drafts| && t.Sized(|plans|) && j < |plans|
  {
    var d := WithDefaults(env.runtime, drafts[j]);
    && !t.done[j] && !t.linked[j] && t.specs[j] == None && t.ids[j] == None && t.nodes[j] == None
    && t.drafts[j] == if j == Passing(env, plans, drafts) then LastEdit(plans[j].hooks, 0, d) else d
  }

  lemma PassingAll(env: Env, plans: seq<Plan>, drafts: seq<Draft>)
    requires |plans| == |drafts|
    ensures AllPrepared(env, plans, drafts) <==> Passing(env, plans, drafts) == |plans|
  {
    var f := Passing(env, plans, drafts);
    assert f < |plans| ==> Prepared(env, plans[f], drafts[f]).Failure?;
  }

  /** The exact outcome of a save, for any hooks. */
  lemma {:induction false} SavedExactly(env: Env, plans: seq<Plan>, drafts: seq<Draft>, batches: seq<seq<Spec>>)
    requires |plans| == |drafts| && plans != []
    ensures
      var r, f := Saved(env, plans, drafts, batches), Passing(env, plans, drafts);
      && r.state.batches ==
         (if AllPrepared(env, plans, drafts) then batches + [EachSpec(env, plans, drafts)] else batches)
      && r.error == (if f == 0 then Answer(env, plans, drafts)
                     else AfterAll(plans[0].hooks, 0, Heard(env, plans, drafts, 0)))
      && (forall j | 0 <= j < f :: MadeAt(env, plans, drafts, r.state, j))
      && forall j | f <= j < |plans| :: UntouchedAt(env, plans, drafts, r.state, j)
  {
    PassingAll(env, plans, drafts);
    if AllPrepared(env, plans, drafts) {
      SavedWhenPrepared(env, plans, drafts, batches);
    } else {
      SavedWhenStopped(env, plans, drafts, batches);
    }
  }

  lemma {:induction false} SavedWhenPrepared(env: Env, plans: seq<Plan>, drafts: seq<Draft>, batches: seq<seq<Spec>>)
    requires |plans| == |drafts| && plans != [] && AllPrepared(env, plans, drafts)
    ensures Passing(env, plans, drafts) == |plans|
    ensures
      var r := Saved(env, plans, drafts, batches);
      && r.state.batches == batches + [EachSpec(env, plans, drafts)]
      && r.error == AfterAll(plans[0].hooks, 0, Heard(env, plans, drafts, 0))
      && forall j | 0 <= j < |plans| :: MadeAt(env, plans, drafts, r.state, j)
  {
    var s := Start(env.runtime, drafts, batches);
    PassingAll(env, plans, drafts);
    assert plans[..|plans|] == plans;
    assert AllBuilt(env, plans, s, 0, 0);
    WhenBuilt(env, plans, s, 0, 0);
    var t := Mutated(env, plans, s, 0, 0).state;
    forall j | 0 <= j < |plans| ensures t.specs[j] == Some(EachSpec(env, plans, drafts)[j]) {
      assert SettledAt(env, plans, s, t, 0, 0, j);
    }
    BatchOfAll(t.specs, EachSpec(env, plans, drafts));
    forall j | 0 <= j < |plans| ensures MadeAt(env, plans, drafts, t, j) {
      assert SettledAt(env, plans, s, t, 0, 0, j);
    }
  }

  lemma {:induction false} SavedWhenStopped(env: Env, plans: seq<Plan>, drafts: seq<Draft>, batches: seq<seq<Spec>>)
    requires |plans| == |drafts| && plans != [] && !AllPrepared(env, plans, drafts)
    ensures Passing(env, plans, drafts) < |plans|
    ensures
      var r, f := Saved(env, plans, drafts, batches), Passing(env, plans, drafts);
      && r.state.batches == batches
      && r.error == (if f == 0 then Answer(env, plans, drafts)
                     else AfterAll(plans[0].hooks, 0, Heard(env, plans, drafts, 0)))
      && (forall j | 0 <= j < f :: MadeAt(env, plans, drafts, r.state, j))
      && forall j | f <= j < |plans| :: UntouchedAt(env, plans, drafts, r.state, j)
  {
    var s, f := Start(env.runtime, drafts, batches), Passing(env, plans, drafts);
    PassingAll(env, plans, drafts);
    forall j | 0 <= j < |plans| ensures BuiltAt(env, plans, s, 0, 0, j) == Prepared(env, plans[j], drafts[j]) {}
    assert BuiltAt(env, plans, s, 0, 0, f).Failure?;
    WhenStopped(env, plans, s, 0, 0, f);
    var t, answer := Mutated(env, plans, s, 0, 0).state, Answer(env, plans, drafts);
    forall j | 0 <= j < f ensures MadeAt(env, plans, drafts, t, j) {
      assert LeftAt(env, plans, s, t, 0, 0, f, answer, j);
    }
    forall j | f <= j < |plans| ensures UntouchedAt(env, plans, drafts, t, j) {
      assert LeftAt(env, plans, s, t, 0, 0, f, answer, j);
    }
  }

  /** For a list that is not empty, the batch insert runs exactly once, with the spec of every builder
      in its place, if every builder passes its check, and never otherwise. */
  lemma {:induction false} InsertsExactlyOnce(env: Env, plans: seq<Plan>, drafts: seq<Draft>, batches: seq<seq<Spec>>)
    requires |plans| == |drafts| && plans != []
    ensures Saved(env, plans, drafts, batches).state.batches ==
            if AllPrepared(env, plans, drafts) then batches + [EachSpec(env, plans, drafts)] else batches
  {
    SavedExactly(env, plans, drafts, batches);
  }

  /** Whatever the hooks do, a mutation ends up done exactly if its builder and those before it pass and
      what comes back to its mutator is not an error. */
  lemma {:induction false} DoneExactly(env: Env, plans: seq<Plan>, drafts: seq<Draft>, batches: seq<seq<Spec>>, j: nat)
    requires j < |plans| == |drafts|
    ensures Saved(env, plans, drafts, batches).state.done[j] <==>
            j < Passing(env, plans, drafts) && Heard(env, plans, drafts, j).None?
    ensures Saved(env, plans, drafts, batches).state.linked[j] == Saved(env, plans, drafts, batches).state.done[j]
  {
    var t, f := Saved(env, plans, drafts, batches).state, Passing(env, plans, drafts);
    SavedExactly(env, plans, drafts, batches);
    assert if j < f then MadeAt(env, plans, drafts, t, j) else UntouchedAt(env, plans, drafts, t, j);
  }

  /** Every builder passes its check and the database accepts the batch. */
  ghost predicate Accepted(env: Env, plans: seq<Plan>, drafts: seq<Draft>)
    requires |plans| == |drafts|
  {
    AllPrepared(env, plans, drafts) && env.insert(EachSpec(env, plans, drafts)).Inserted?
  }

  /** A save that is not accepted leaves no mutation done exactly if no builder in front of the failure has
      it hidden from it by the hooks in between; honest hooks hide nothing, and let the error out. */
  lemma {:induction false} NothingDone(env: Env, plans: seq<Plan>, drafts: seq<Draft>, batches: seq<seq<Spec>>)
    requires |plans| == |drafts| && plans != [] && !Accepted(env, plans, drafts)
    ensures
      (forall j | 0 <= j < |plans| :: !Saved(env, plans, drafts, batches).state.done[j]) <==>
      (forall j | 0 <= j < Passing(env, plans, drafts) :: Heard(env, plans, drafts, j).Some?)
    ensures AllHonest(plans) ==>
      && Saved(env, plans, drafts, batches).error.Some?
      && forall j | 0 <= j < Passing(env, plans, drafts) :: Heard(env, plans, drafts, j).Some?
  {
    var f := Passing(env, plans, drafts);
    SavedExactly(env, plans, drafts, batches);
    forall j | 0 <= j < |plans|
      ensures Saved(env, plans, drafts, batches).state.done[j] <==> j < f && Heard(env, plans, drafts, j).None?
    {
      DoneExactly(env, plans, drafts, batches, j);
    }
    if AllHonest(plans) {
      HonestAnswer(env, plans, drafts);
      forall j | 0 <= j < f ensures Heard(env, plans, drafts, j).Some? {
        HonestBehind(plans[..f], j, Answer(env, plans, drafts).value);
      }
      if f > 0 { HonestAfter(plans[0].hooks, 0, Heard(env, plans, drafts, 0).value); }
    }
  }

  lemma HonestAnswer(env: Env, plans: seq<Plan>, drafts: seq<Draft>)
    requires |plans| == |drafts| && !Accepted(env, plans, drafts) && AllHonest(plans)
    ensures Answer(env, plans, drafts).Some?
  {
    var f := Passing(env, plans, drafts);
    PassingAll(env, plans, drafts);
    if f < |plans| { HonestStopped(env, plans[f], WithDefaults(env.runtime, drafts[f]), 0); }
  }

  lemma {:induction false} HonestStopped(env: Env, plan: Plan, d: Draft, k: nat)
    requires k <= |plan.hooks| && BuiltFrom(env, plan, d, k).Failure?
    requires forall h | 0 <= h < |plan.hooks| :: Honest(plan.hooks[h])
    ensures Stopped(env, plan, d, k).Some?
    decreases |plan.hooks| - k
  {
    if k < |plan.hooks| && plan.hooks[k].edit(d).Success? {
      HonestStopped(env, plan, plan.hooks[k].edit(d).value, k + 1);
      assert Honest(plan.hooks[k]);
    }
  }

  /** An accepted save leaves at every position the draft, spec and node that its builder makes on its own,
      and every mutation done, with its id in the node, exactly if no hook makes an error of the success;
      lenient hooks do not, and let the success out. */
  lemma {:induction false} AllDone(env: Env, plans: seq<Plan>, drafts: seq<Draft>, batches: seq<seq<Spec>>)
    requires |plans| == |drafts| && plans != [] && Accepted(env, plans, drafts)
    ensures Passing(env, plans, drafts) == |plans|
    ensures
      var t := Saved(env, plans, drafts, batches).state;
      forall j | 0 <= j < |plans| ::
        && MadeAt(env, plans, drafts, t, j)
        && (t.done[j] <==> ErrorBehind(plans, j, None) == None)
    ensures AllLenient(plans) ==>
      && Saved(env, plans, drafts, batches).error.None?
      && forall j | 0 <= j < |plans| :: Saved(env, plans, drafts, batches).state.done[j]
  {
    SavedWhenPrepared(env, plans, drafts, batches);
    var t := Saved(env, plans, drafts, batches).state;
    forall j | 0 <= j < |plans| ensures t.done[j] <==> ErrorBehind(plans, j, None) == None {
      assert MadeAt(env, plans, drafts, t, j);
      assert plans[..|plans|] == plans;
    }
    if AllLenient(plans) {
      forall j | 0 <= j < |plans| ensures t.done[j] { LenientBehind(plans, j); }
      assert MadeAt(env, plans, drafts, t, 0);
      LenientAfter(plans[0].hooks, 0);
    }
  }

  /** With hooks that pass errors and successes on, a bulk save succeeds exactly if it is accepted, and
      then every mutation is done, and otherwise none is. */
  lemma {:induction false} AllOrNothing(env: Env, plans: seq<Plan>, drafts: seq<Draft>, batches: seq<seq<Spec>>)
    requires |plans| == |drafts| && plans != [] && AllHonest(plans) && AllLenient(plans)
    ensures Saved(env, plans, drafts, batches).error.None? <==> Accepted(env, plans, drafts)
    ensures forall j | 0 <= j < |plans| ::
      Saved(env, plans, drafts, batches).state.done[j] <==> Accepted(env, plans, drafts)
  {
    if Accepted(env, plans, drafts) {
      AllDone(env, plans, drafts, batches);
    } else {
      NothingDone(env, plans, drafts, batches);
    }
  }
}
