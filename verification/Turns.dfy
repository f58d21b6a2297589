/** A bulk save against saving its builders in turn, over a database that the earlier saves change. */
module Turns {
  import opened Wrappers
  import opened Schema
  import opened Drafts
  import opened Bulk
  import opened Outcomes
  import opened Hidden
  import opened Singles

  // ----- databases -----

  /** What becomes of a batch: the ids of its rows and what the database holds afterwards, or an error. */
  datatype Effect<T> = Accepts(ids: nat -> Option<int>, after: T) | Refuses(error: SaveError)

  /** What a database that holds this does with a batch. */
  type Database<!T> = (T, seq<Spec>) -> Effect<T>

  function EnvAt<T>(runtime: Runtime, database: Database<T>, t: T): Env {
    Env(runtime, specs =>
      match database(t, specs)
      case Accepts(ids, _) => Inserted(ids)
      case Refuses(e) => NotInserted(e))
  }

  /** What the database holds after something was sent to it. */
  function After<T>(database: Database<T>, t: T, sent: seq<Spec>): T {
    if sent == [] then t
    else
      match database(t, sent)
      case Accepts(_, after) => after
      case Refuses(_) => t
  }

  datatype Taken<T> = Taken(ids: seq<Option<int>>, after: T)

  /** The ids of a batch and what the database holds after it, if it accepts it. */
  function InBatch<T>(database: Database<T>, t: T, specs: seq<Spec>): Option<Taken<T>> {
    match database(t, specs)
    case Accepts(ids, after) => Some(Taken(seq(|specs|, i requires 0 <= i < |specs| => ids(i)), after))
    case Refuses(_) => None
  }

  /** The same for specs that are inserted one by one. */
  function OneByOne<T>(database: Database<T>, t: T, specs: seq<Spec>): Option<Taken<T>>
    decreases specs
  {
    if specs == [] then Some(Taken([], t))
    else
      match InBatch(database, t, [specs[0]])
      case None => None
      case Some(first) =>
        match OneByOne(database, first.after, specs[1..])
        case None => None
        case Some(rest) => Some(Taken(first.ids + rest.ids, rest.after))
  }

  /** A batch is accepted exactly if its specs would be accepted one by one, with the same effect. */
  ghost predicate BatchesAreInserts<T(!new)>(database: Database<T>) {
    forall t, specs | specs != [] :: InBatch(database, t, specs) == OneByOne(database, t, specs)
  }

  // ----- saving in turn -----

  /** What the database holds, the single saves, and the error of the one that failed, if any. */
  datatype Turn<T> = Turn(after: T, saves: seq<Single>, error: Option<SaveError>)

  /** Saves the builders from the i-th on one after the other, up to the first that fails. */
  function InTurn<T>(runtime: Runtime, database: Database<T>, t: T,
                     plans: seq<Plan>, drafts: seq<Draft>, i: nat): Turn<T>
    requires i <= |plans| == |drafts|
    decreases |plans| - i
  {
    if i == |plans| then Turn(t, [], None)
    else
      var one := SavedAlone(EnvAt(runtime, database, t), plans[i], drafts[i]);
      var after := After(database, t, one.sent);
      if one.error.Some? then Turn(after, [one], one.error)
      else
        var rest := InTurn(runtime, database, after, plans, drafts, i + 1);
        rest.(saves := [one] + rest.saves)
  }

  /** The builder has its defaults and passes its check. */
  ghost predicate PassesAlone(env: Env, plan: Plan, d: Draft) {
    Defaults(env.runtime, d).error.None? && Prepared(env, plan, d).Success?
  }

  ghost predicate AloneFrom(env: Env, plans: seq<Plan>, drafts: seq<Draft>, i: nat)
    requires i <= |plans| == |drafts|
  {
    forall j | i <= j < |plans| :: PassesAlone(env, plans[j], drafts[j])
  }

  /** The spec that a builder makes on its own. */
  function OwnSpec(env: Env, plan: Plan, d: Draft): Spec
    requires Prepared(env, plan, d).Success?
  {
    SpecOf(env.runtime, Prepared(env, plan, d).value, plan.conflict)
  }

  ghost function SpecsFrom(env: Env, plans: seq<Plan>, drafts: seq<Draft>, i: nat): (specs: seq<Spec>)
    requires i <= |plans| == |drafts| && AloneFrom(env, plans, drafts, i)
    ensures |specs| == |plans| - i
    decreases |plans| - i
  {
    if i == |plans| then [] else [OwnSpec(env, plans[i], drafts[i])] + SpecsFrom(env, plans, drafts, i + 1)
  }

  lemma PreparedAnywhere(env: Env, other: Env, plan: Plan, d: Draft)
    requires other.runtime == env.runtime
    ensures Prepared(other, plan, d) == Prepared(env, plan, d)
  {
  }

  /** A save that succeeds leaves the draft, the spec and the node of its builder, with the id that was given. */
  ghost predicate SavedWith(env: Env, plan: Plan, d: Draft, one: Single, id: Option<int>) {
    && Prepared(env, plan, d).Success?
    && one.draft == Prepared(env, plan, d).value && one.sent == [OwnSpec(env, plan, d)]
    && one.done && one.node == Some(NodeOf(one.draft).(id := IDOr0(id)))
  }

  /** One turn: it succeeds exactly if the builder passes alone and the database accepts its spec. */
  lemma {:induction false} TurnOfOne<T>(env: Env, database: Database<T>, t: T, plan: Plan, d: Draft)
    requires forall h | 0 <= h < |plan.hooks| :: Honest(plan.hooks[h]) && Lenient(plan.hooks[h])
    ensures
      var one := SavedAlone(EnvAt(env.runtime, database, t), plan, d);
      if !PassesAlone(env, plan, d) then one.error.Some?
      else
        var taken := InBatch(database, t, [OwnSpec(env, plan, d)]);
        && one.sent == [OwnSpec(env, plan, d)] && (one.error.None? <==> taken.Some?)
        && (taken.Some? ==>
              After(database, t, one.sent) == taken.value.after && SavedWith(env, plan, d, one, taken.value.ids[0]))
  {
    var here := EnvAt(env.runtime, database, t);
    PreparedAnywhere(env, here, plan, d);
    SavedAloneExactly(here, plan, d);
  }

  /** The saves from builder i on, each with its id. */
  ghost predicate SavedAll<T>(env: Env, plans: seq<Plan>, drafts: seq<Draft>, i: nat, turn: Turn<T>, taken: Taken<T>)
    requires i <= |plans| == |drafts|
  {
    && |turn.saves| == |taken.ids| == |plans| - i && turn.after == taken.after
    && forall m | 0 <= m < |turn.saves| ::
         SavedWith(env, plans[i + m], drafts[i + m], turn.saves[m], taken.ids[m])
  }

  /** Saving in turn succeeds exactly if every builder has its defaults and passes, and the database accepts their
      specs one by one. */
  lemma {:induction false} InTurnExactly<T>(env: Env, database: Database<T>, t: T,
                                            plans: seq<Plan>, drafts: seq<Draft>, i: nat)
    requires i <= |plans| == |drafts| && AllHonest(plans) && AllLenient(plans)
    ensures
      var turn := InTurn(env.runtime, database, t, plans, drafts, i);
      if !AloneFrom(env, plans, drafts, i) then turn.error.Some?
      else
        var taken := OneByOne(database, t, SpecsFrom(env, plans, drafts, i));
        && (turn.error.None? <==> taken.Some?)
        && (taken.Some? ==> SavedAll(env, plans, drafts, i, turn, taken.value))
    decreases |plans| - i
  {
    if i < |plans| {
      var one := SavedAlone(EnvAt(env.runtime, database, t), plans[i], drafts[i]);
      var after := After(database, t, one.sent);
      TurnOfOne(env, database, t, plans[i], drafts[i]);
      InTurnExactly(env, database, after, plans, drafts, i + 1);
      assert AloneFrom(env, plans, drafts, i) <==>
             PassesAlone(env, plans[i], drafts[i]) && AloneFrom(env, plans, drafts, i + 1);
      if AloneFrom(env, plans, drafts, i) {
        var first := InBatch(database, t, [OwnSpec(env, plans[i], drafts[i])]);
        var rest := OneByOne(database, after, SpecsFrom(env, plans, drafts, i + 1));
        if first.Some? && rest.Some? {
          var turn := InTurn(env.runtime, database, after, plans, drafts, i + 1);
          SavedMore(env, plans, drafts, i, one, first.value, turn, rest.value);
        }
      }
    }
  }

  lemma {:induction false} SavedMore<T>(env: Env, plans: seq<Plan>, drafts: seq<Draft>, i: nat,
                                        one: Single, first: Taken<T>, turn: Turn<T>, rest: Taken<T>)
    requires i < |plans| == |drafts| && |first.ids| == 1 && SavedWith(env, plans[i], drafts[i], one, first.ids[0])
    requires SavedAll(env, plans, drafts, i + 1, turn, rest)
    ensures SavedAll(env, plans, drafts, i, turn.(saves := [one] + turn.saves), Taken(first.ids + rest.ids, rest.after))
  {
    var saves, ids := [one] + turn.saves, first.ids + rest.ids;
    forall m | 0 <= m < |saves| ensures SavedWith(env, plans[i + m], drafts[i + m], saves[m], ids[m]) {
      if m > 0 {
        var n := m - 1;
        assert SavedWith(env, plans[i + 1 + n], drafts[i + 1 + n], turn.saves[n], rest.ids[n]);
      }
    }
  }

  lemma {:induction false} FailureLeavesNothing<T>(env: Env, database: Database<T>, t: T, plan: Plan, d: Draft)
    requires forall h | 0 <= h < |plan.hooks| :: Honest(plan.hooks[h]) && Lenient(plan.hooks[h])
    requires SavedAlone(EnvAt(env.runtime, database, t), plan, d).error.Some?
    ensures After(database, t, SavedAlone(EnvAt(env.runtime, database, t), plan, d).sent) == t
  {
    SavedAloneExactly(EnvAt(env.runtime, database, t), plan, d);
  }

  /** A turn that is another one, which succeeds, and then one more save, which fails. */
  ghost predicate EndsIn<T>(database: Database<T>, turn: Turn<T>, before: Turn<T>, last: Single) {
    && before.error.None? && turn.saves == before.saves + [last]
    && last.error.Some? && turn.error == last.error && turn.after == After(database, before.after, last.sent)
  }

  lemma EndsLater<T>(database: Database<T>, one: Single, turn: Turn<T>, before: Turn<T>, last: Single)
    requires EndsIn(database, turn, before, last)
    ensures EndsIn(database, turn.(saves := [one] + turn.saves), before.(saves := [one] + before.saves), last)
  {
    assert [one] + (before.saves + [last]) == ([one] + before.saves) + [last];
  }

  /** Saving in turn that fails is saving the builders before the failure in turn, and then one more, which fails. */
  ghost predicate FailsOnce<T>(runtime: Runtime, database: Database<T>, t: T,
                               plans: seq<Plan>, drafts: seq<Draft>, i: nat)
    requires i <= |plans| == |drafts|
  {
    var turn := InTurn(runtime, database, t, plans, drafts, i);
    var k := i + |turn.saves| - 1;
    && i <= k < |plans|
    && var before := InTurn(runtime, database, t, plans[..k], drafts[..k], i);
       EndsIn(database, turn, before, SavedAlone(EnvAt(runtime, database, before.after), plans[k], drafts[k]))
  }

  lemma {:induction false} FailedTurn<T>(runtime: Runtime, database: Database<T>, t: T,
                                         plans: seq<Plan>, drafts: seq<Draft>, i: nat)
    requires i <= |plans| == |drafts| && InTurn(runtime, database, t, plans, drafts, i).error.Some?
    ensures FailsOnce(runtime, database, t, plans, drafts, i)
    decreases |plans| - i
  {
    var one := SavedAlone(EnvAt(runtime, database, t), plans[i], drafts[i]);
    if one.error.None? {
      var after := After(database, t, one.sent);
      FailedTurn(runtime, database, after, plans, drafts, i + 1);
      FailedNext(runtime, database, t, plans, drafts, i, one, after);
    }
  }

  lemma {:induction false} FailedNext<T>(runtime: Runtime, database: Database<T>, t: T,
                                         plans: seq<Plan>, drafts: seq<Draft>, i: nat, one: Single, after: T)
    requires i < |plans| == |drafts| && FailsOnce(runtime, database, after, plans, drafts, i + 1)
    requires one == SavedAlone(EnvAt(runtime, database, t), plans[i], drafts[i]) && one.error.None?
    requires after == After(database, t, one.sent)
    ensures FailsOnce(runtime, database, t, plans, drafts, i)
  {
    var rest := InTurn(runtime, database, after, plans, drafts, i + 1);
    var k := i + |rest.saves|;
    var before := InTurn(runtime, database, after, plans[..k], drafts[..k], i + 1);
    EndsLater(database, one, rest, before, SavedAlone(EnvAt(runtime, database, before.after), plans[k], drafts[k]));
    assert plans[..k][i] == plans[i] && drafts[..k][i] == drafts[i];
    assert InTurn(runtime, database, t, plans[..k], drafts[..k], i) == before.(saves := [one] + before.saves);
  }

  /** With hooks that pass results on, the failure leaves nothing. */
  lemma {:induction false} FailedTurnLeaves<T>(runtime: Runtime, database: Database<T>, t: T,
                                               plans: seq<Plan>, drafts: seq<Draft>, i: nat)
    requires i <= |plans| == |drafts| && AllHonest(plans) && AllLenient(plans)
    requires InTurn(runtime, database, t, plans, drafts, i).error.Some?
    ensures
      var turn := InTurn(runtime, database, t, plans, drafts, i);
      var k := i + |turn.saves| - 1;
      i <= k <= |plans| && turn.after == InTurn(runtime, database, t, plans[..k], drafts[..k], i).after
  {
    var turn := InTurn(runtime, database, t, plans, drafts, i);
    FailedTurn(runtime, database, t, plans, drafts, i);
    var k := i + |turn.saves| - 1;
    var before := InTurn(runtime, database, t, plans[..k], drafts[..k], i);
    FailureLeavesNothing(EnvAt(runtime, database, t), database, before.after, plans[k], drafts[k]);
  }

  lemma {:induction false} SpecsFromAt(env: Env, plans: seq<Plan>, drafts: seq<Draft>, i: nat, m: nat)
    requires i <= |plans| == |drafts| && AloneFrom(env, plans, drafts, i) && m < |plans| - i
    ensures SpecsFrom(env, plans, drafts, i)[m] == OwnSpec(env, plans[i + m], drafts[i + m])
    decreases m
  {
    if m > 0 { SpecsFromAt(env, plans, drafts, i + 1, m - 1); }
  }

  lemma EachFromStart(env: Env, plans: seq<Plan>, drafts: seq<Draft>)
    requires |plans| == |drafts| && AloneFrom(env, plans, drafts, 0) && AllPrepared(env, plans, drafts)
    ensures SpecsFrom(env, plans, drafts, 0) == EachSpec(env, plans, drafts)
  {
    forall m | 0 <= m < |plans| ensures SpecsFrom(env, plans, drafts, 0)[m] == EachSpec(env, plans, drafts)[m] {
      SpecsFromAt(env, plans, drafts, 0, m);
    }
  }

  // ----- the bulk save -----

  /** What a bulk save has in common with a single save of the builder at one position. */
  ghost predicate SameSave(bulk: State, n: nat, j: nat, one: Single)
    requires bulk.Sized(n) && j < n
  {
    && bulk.drafts[j] == one.draft && bulk.done[j] == one.done && bulk.nodes[j] == one.node
    && bulk.specs[j].Some? && one.sent == [bulk.specs[j].value]
  }

  /** What the database holds after a bulk save, which sends at most one batch. */
  function AfterBulk<T>(database: Database<T>, t: T, batches: seq<seq<Spec>>): T {
    if batches == [] then t else After(database, t, batches[0])
  }

  /** A bulk save is saving its builders in turn, made atomic: it succeeds exactly if saving in turn does. It then
      leaves the database as saving in turn does, and the same draft, spec and node for every builder, ids
      included; otherwise it leaves the database as it was and no mutation done, where saving in turn leaves
      what came before the failure. */
  ghost predicate Agrees<T>(runtime: Runtime, database: Database<T>, t: T, plans: seq<Plan>, drafts: seq<Draft>)
    requires |plans| == |drafts|
  {
    var bulk := Saved(EnvAt(runtime, database, t), plans, drafts, []);
    var turn := InTurn(runtime, database, t, plans, drafts, 0);
    && (bulk.error.None? <==> turn.error.None?)
    && AfterBulk(database, t, bulk.state.batches) == (if turn.error.None? then turn.after else t)
    && (turn.error.None? ==> |turn.saves| == |plans|)
    && forall j | 0 <= j < |plans| ::
         if turn.error.None? then SameSave(bulk.state, |plans|, j, turn.saves[j]) else !bulk.state.done[j]
  }

  /** No default that a builder needs is missing. */
  ghost predicate AllDefaulted(runtime: Runtime, drafts: seq<Draft>) {
    forall j | 0 <= j < |drafts| :: Defaults(runtime, drafts[j]).error.None?
  }

  /** With hooks that pass errors and successes on, over a database that takes a batch as it takes its specs one by
      one, a bulk save is saving in turn made atomic, unless it is accepted although some default is missing. */
  lemma {:induction false} BulkIsAtomicTurns<T(!new)>(runtime: Runtime, database: Database<T>, t: T,
                                                      plans: seq<Plan>, drafts: seq<Draft>)
    requires |plans| == |drafts| && plans != [] && AllHonest(plans) && AllLenient(plans) && BatchesAreInserts(database)
    ensures Agrees(runtime, database, t, plans, drafts) <==>
            (Accepted(EnvAt(runtime, database, t), plans, drafts) ==> AllDefaulted(runtime, drafts))
  {
    var env := EnvAt(runtime, database, t);
    InTurnExactly(env, database, t, plans, drafts, 0);
    AllOrNothing(env, plans, drafts, []);
    AloneIsPrepared(env, plans, drafts);
    if Accepted(env, plans, drafts) {
      if AllDefaulted(runtime, drafts) { AcceptedAgrees(runtime, database, t, plans, drafts); }
    } else {
      RefusedAgrees(runtime, database, t, plans, drafts);
    }
  }

  lemma AloneIsPrepared(env: Env, plans: seq<Plan>, drafts: seq<Draft>)
    requires |plans| == |drafts|
    ensures AloneFrom(env, plans, drafts, 0) <==> AllPrepared(env, plans, drafts) && AllDefaulted(env.runtime, drafts)
  {
    if AloneFrom(env, plans, drafts, 0) {
      forall j | 0 <= j < |plans|
        ensures Prepared(env, plans[j], drafts[j]).Success? && Defaults(env.runtime, drafts[j]).error.None?
      {
        assert PassesAlone(env, plans[j], drafts[j]);
      }
    }
  }

  lemma {:induction false} AcceptedAgrees<T(!new)>(runtime: Runtime, database: Database<T>, t: T,
                                                   plans: seq<Plan>, drafts: seq<Draft>)
    requires |plans| == |drafts| && plans != [] && AllHonest(plans) && AllLenient(plans) && BatchesAreInserts(database)
    requires Accepted(EnvAt(runtime, database, t), plans, drafts) && AllDefaulted(runtime, drafts)
    ensures Agrees(runtime, database, t, plans, drafts)
  {
    var env := EnvAt(runtime, database, t);
    var specs, turn := EachSpec(env, plans, drafts), InTurn(runtime, database, t, plans, drafts, 0);
    AloneIsPrepared(env, plans, drafts);
    InTurnExactly(env, database, t, plans, drafts, 0);
    EachFromStart(env, plans, drafts);
    assert InBatch(database, t, specs) == OneByOne(database, t, specs);
    InsertsExactlyOnce(env, plans, drafts, []);
    AllDone(env, plans, drafts, []);
    forall j | 0 <= j < |plans| { SavedAlike(env, database, t, plans, drafts, turn, j); }
  }

  lemma {:induction false} SavedAlike<T>(env: Env, database: Database<T>, t: T,
                                         plans: seq<Plan>, drafts: seq<Draft>, turn: Turn<T>, j: nat)
    requires j < |plans| == |drafts| && AllLenient(plans) && env == EnvAt(env.runtime, database, t)
    requires Accepted(env, plans, drafts)
    requires InBatch(database, t, EachSpec(env, plans, drafts)).Some?
    requires SavedAll(env, plans, drafts, 0, turn, InBatch(database, t, EachSpec(env, plans, drafts)).value)
    ensures SameSave(Saved(env, plans, drafts, []).state, |plans|, j, turn.saves[j])
  {
    var taken := InBatch(database, t, EachSpec(env, plans, drafts)).value;
    AllDone(env, plans, drafts, []);
    assert MadeAt(env, plans, drafts, Saved(env, plans, drafts, []).state, j);
    assert SavedWith(env, plans[0 + j], drafts[0 + j], turn.saves[j], taken.ids[j]);
  }

  lemma {:induction false} RefusedAgrees<T(!new)>(runtime: Runtime, database: Database<T>, t: T,
                                                  plans: seq<Plan>, drafts: seq<Draft>)
    requires |plans| == |drafts| && plans != [] && AllHonest(plans) && AllLenient(plans) && BatchesAreInserts(database)
    requires !Accepted(EnvAt(runtime, database, t), plans, drafts)
    ensures Agrees(runtime, database, t, plans, drafts)
  {
    var env := EnvAt(runtime, database, t);
    InTurnExactly(env, database, t, plans, drafts, 0);
    AllOrNothing(env, plans, drafts, []);
    InsertsExactlyOnce(env, plans, drafts, []);
    AloneIsPrepared(env, plans, drafts);
    if AloneFrom(env, plans, drafts, 0) {
      var specs := EachSpec(env, plans, drafts);
      EachFromStart(env, plans, drafts);
      assert InBatch(database, t, specs) == OneByOne(database, t, specs);
    }
  }

  // ----- whatever the database -----

  /** A table whose ids count up from one. */
  function Serial(): Database<seq<AccountRow>> {
    (rows, specs) => Accepts(SerialIDs(|rows|), rows + Numbered(specs, |rows|))
  }

  function SerialIDs(n: nat): nat -> Option<int> { i => Some(n + 1 + i) }

  function Numbered(specs: seq<Spec>, n: nat): seq<AccountRow> {
    seq(|specs|, i requires 0 <= i < |specs| => RowOf(specs[i], n + 1 + i))
  }

  lemma {:induction false} SerialOneByOne(rows: seq<AccountRow>, specs: seq<Spec>)
    ensures OneByOne(Serial(), rows, specs) == InBatch(Serial(), rows, specs)
    decreases specs
  {
    if specs == [] {
      assert rows + Numbered(specs, |rows|) == rows;
    } else {
      var first, rest := InBatch(Serial(), rows, [specs[0]]).value, specs[1..];
      SerialOneByOne(first.after, rest);
      var all, others := InBatch(Serial(), rows, specs).value, InBatch(Serial(), first.after, rest).value;
      assert forall i | 0 < i < |specs| :: rest[i - 1] == specs[i];
      assert all.ids == first.ids + others.ids;
      assert all.after == others.after;
    }
  }

  /** Such a table takes batches as it takes their specs one by one. */
  lemma SerialTakesBatches()
    ensures BatchesAreInserts(Serial())
  {
    forall rows, specs | specs != [] ensures InBatch(Serial(), rows, specs) == OneByOne(Serial(), rows, specs) {
      SerialOneByOne(rows, specs);
    }
  }

  /** Every builder passes in a bulk save, which does not depend on the database. */
  ghost predicate EachPasses(runtime: Runtime, plans: seq<Plan>, drafts: seq<Draft>)
    requires |plans| == |drafts|
  {
    AllPrepared(EnvAt(runtime, Serial(), []), plans, drafts)
  }

  /** For hooks that pass errors and successes on, a bulk save is saving in turn made atomic over every database
      that takes batches so, if and only if no default is missing or some builder does not pass. */
  lemma {:induction false} AgreesWhateverDatabase(runtime: Runtime, plans: seq<Plan>, drafts: seq<Draft>)
    requires |plans| == |drafts| && plans != [] && AllHonest(plans) && AllLenient(plans)
    ensures
      (forall database: Database<seq<AccountRow>>, rows | BatchesAreInserts(database) ::
         Agrees(runtime, database, rows, plans, drafts)) <==>
      (EachPasses(runtime, plans, drafts) ==> AllDefaulted(runtime, drafts))
  {
    var serial := EnvAt(runtime, Serial(), []);
    SerialTakesBatches();
    BulkIsAtomicTurns(runtime, Serial(), [], plans, drafts);
    assert EachPasses(runtime, plans, drafts) <==> Accepted(serial, plans, drafts);
    if EachPasses(runtime, plans, drafts) ==> AllDefaulted(runtime, drafts) {
      forall database: Database<seq<AccountRow>>, rows | BatchesAreInserts(database)
        ensures Agrees(runtime, database, rows, plans, drafts)
      {
        BulkIsAtomicTurns(runtime, database, rows, plans, drafts);
        PreparedWhateverDatabase(EnvAt(runtime, database, rows), serial, plans, drafts);
      }
    }
  }

  lemma PreparedWhateverDatabase(env: Env, other: Env, plans: seq<Plan>, drafts: seq<Draft>)
    requires |plans| == |drafts| && env.runtime == other.runtime
    ensures AllPrepared(env, plans, drafts) <==> AllPrepared(other, plans, drafts)
  {
    forall j | 0 <= j < |plans| ensures Prepared(env, plans[j], drafts[j]) == Prepared(other, plans[j], drafts[j]) {
      PreparedAnywhere(env, other, plans[j], drafts[j]);
    }
  }

  // ----- what the conditions are for -----

  /** A hook that makes up for a missing default: the bulk save is accepted, and saving alone fails. */
  lemma RescueBreaksIt() returns (runtime: Runtime, plans: seq<Plan>, drafts: seq<Draft>)
    ensures |plans| == |drafts| && plans != [] && AllHonest(plans) && AllLenient(plans)
    ensures !Agrees(runtime, Serial(), [], plans, drafts)
  {
    var env, plan, d := RescueHappens();
    runtime, plans, drafts := env.runtime, [plan], [d];
    SerialTakesBatches();
    BulkIsAtomicTurns(runtime, Serial(), [], plans, drafts);
    PreparedAnywhere(env, EnvAt(runtime, Serial(), []), plan, d);
  }

  /** A database that refuses everything. */
  function Closed(): Database<seq<AccountRow>> {
    (_, _) => Refuses(Refused(""))
  }

  lemma ClosedTakesBatches()
    ensures BatchesAreInserts(Closed())
  {
  }

  lemma HidingIsLenient(plans: seq<Plan>, drafts: seq<Draft>)
    requires SecondHides(plans, drafts)
    ensures AllLenient(plans)
  {
  }

  /** A hook that hides errors: the bulk save looks accepted, and saving in turn fails. */
  lemma HidingBreaksIt() returns (runtime: Runtime, plans: seq<Plan>, drafts: seq<Draft>)
    ensures |plans| == |drafts| && plans != [] && AllLenient(plans) && AllDefaulted(runtime, drafts)
    ensures BatchesAreInserts(Closed()) && !Agrees(runtime, Closed(), [], plans, drafts)
  {
    var env, failing;
    env, plans, drafts, failing := SampleSaves();
    runtime := env.runtime;
    PreparedWhateverDatabase(env, EnvAt(runtime, Closed(), []), plans, drafts);
    ClosedTakesBatches();
    HidingIsLenient(plans, drafts);
    HiddenRefusalDisagrees(runtime, plans, drafts);
  }

  lemma {:induction false} HiddenRefusalDisagrees(runtime: Runtime, plans: seq<Plan>, drafts: seq<Draft>)
    requires SecondHides(plans, drafts) && AllPrepared(EnvAt(runtime, Closed(), []), plans, drafts)
    ensures !Agrees(runtime, Closed(), [], plans, drafts)
  {
    var here := EnvAt(runtime, Closed(), []);
    HiddenRefusalLooksSaved(here, plans, drafts);
    SavedAloneExactly(here, plans[0], drafts[0]);
  }

  /** A hook that makes an error of a success: the bulk save returns an error, and yet its rows are stored. */
  lemma StrictnessBreaksIt() returns (runtime: Runtime, plans: seq<Plan>, drafts: seq<Draft>)
    ensures |plans| == |drafts| && plans != [] && AllHonest(plans) && AllDefaulted(runtime, drafts)
    ensures !Agrees(runtime, Serial(), [], plans, drafts)
  {
    var full, empty;
    runtime, full, empty := SampleDrafts();
    var hook := Hook(d => Success(d), _ => Some(HookFailed("")));
    plans, drafts := [Plan([hook], [])], [full];
    var env, filled := EnvAt(runtime, Serial(), []), WithDefaults(runtime, full);
    assert EditAll([hook], 0, filled) == EditAll([hook], 1, filled) == Success(filled);
    SavedExactly(env, plans, drafts, []);
  }
}
