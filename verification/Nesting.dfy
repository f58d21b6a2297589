/** The order in which a bulk save calls hooks and finishes mutations. */
module Nesting {
  import opened Wrappers
  import opened Drafts
  import opened Bulk

  /** A hook that has been entered and not left. */
  datatype Frame = Frame(builder: nat, hook: nat)

  /** The hooks around the h-th hook of builder b: all hooks of the builders before it, in order, then
      its own hooks before that one. */
  function Around(plans: seq<Plan>, b: nat, h: nat): seq<Frame>
    requires b < |plans| && h <= |plans[b].hooks|
    decreases b, h
  {
    if h > 0 then Around(plans, b, h - 1) + [Frame(b, h - 1)]
    else if b > 0 then Around(plans, b - 1, |plans[b - 1].hooks|)
    else []
  }

  /** Plays a trace against a stack of open hooks. A hook may be entered only inside exactly the hooks
      around it and left only when it is innermost; the insertion happens inside all hooks of all
      builders, and a mutation is finished inside the hooks up to its own builder. */
  function Play(plans: seq<Plan>, trace: seq<Event>, open: seq<Frame>): Option<seq<Frame>> {
    if trace == [] then Some(open)
    else
      match trace[0]
      case Enter(b, h) =>
        if b < |plans| && h < |plans[b].hooks| && open == Around(plans, b, h)
        then Play(plans, trace[1..], open + [Frame(b, h)]) else None
      case Exit(b, h) =>
        if b < |plans| && h < |plans[b].hooks| && open == Around(plans, b, h + 1)
        then Play(plans, trace[1..], open[..|open| - 1]) else None
      case Insertion =>
        if plans != [] && open == Around(plans, |plans| - 1, |plans[|plans| - 1].hooks|)
        then Play(plans, trace[1..], open) else None
      case Done(b) =>
        if b < |plans| && open == Around(plans, b, |plans[b].hooks|)
        then Play(plans, trace[1..], open) else None
  }

  lemma {:induction false} PlayConcat(plans: seq<Plan>, a: seq<Event>, b: seq<Event>, open: seq<Frame>)
    requires Play(plans, a, open).Some?
    ensures Play(plans, a + b, open) == Play(plans, b, Play(plans, a, open).value)
  {
    if a == [] {
      assert a + b == b;
    } else {
      assert (a + b)[0] == a[0] && (a + b)[1..] == a[1..] + b;
      match a[0] {
        case Enter(x, h) => PlayConcat(plans, a[1..], b, open + [Frame(x, h)]);
        case Exit(x, h) => PlayConcat(plans, a[1..], b, open[..|open| - 1]);
        case Insertion => PlayConcat(plans, a[1..], b, open);
        case Done(x) => PlayConcat(plans, a[1..], b, open);
      }
    }
  }

  /** What a step adds to the trace. */
  function Added(s: State, t: State): seq<Event>
    requires s.trace <= t.trace
  {
    t.trace[|s.trace|..]
  }

  /** Once a mutation is finished, hooks are only left and earlier mutations finished. */
  predicate Unwinds(trace: seq<Event>) {
    forall p, q | 0 <= p < q < |trace| ::
      trace[p].Done? ==> trace[q].Exit? || (trace[q].Done? && trace[q].builder < trace[p].builder)
  }

  predicate DoneFrom(trace: seq<Event>, i: nat) {
    forall p | 0 <= p < |trace| :: trace[p].Done? ==> i <= trace[p].builder
  }

  ghost predicate Proper(plans: seq<Plan>, s: State, t: State, b: nat, h: nat, from: nat)
    requires b < |plans| && h <= |plans[b].hooks| && s.Sized(|plans|) && t.Sized(|plans|)
  {
    && s.trace <= t.trace
    && Play(plans, Added(s, t), Around(plans, b, h)) == Some(Around(plans, b, h))
    && Unwinds(Added(s, t)) && DoneFrom(Added(s, t), from)
    && forall j | 0 <= j < |plans| :: t.done[j] <==> s.done[j] || Done(j) in Added(s, t)
  }

  lemma {:induction false} WrappedIsProper(plans: seq<Plan>, s: State, s1: State, t1: State, i: nat, k: nat)
    requires i < |plans| && k < |plans[i].hooks| && s.Sized(|plans|) && s1.Sized(|plans|) && t1.Sized(|plans|)
    requires s1.trace == s.trace + [Enter(i, k)] && s1.done == s.done && Proper(plans, s1, t1, i, k + 1, i)
    ensures Proper(plans, s, t1.Log(Exit(i, k)), i, k, i)
  {
    var t, inner, open := t1.Log(Exit(i, k)), Added(s1, t1), Around(plans, i, k);
    var seg := [Enter(i, k)] + inner + [Exit(i, k)];
    assert t.trace == s.trace + seg;
    assert Added(s, t) == seg;
    PlayConcat(plans, [Enter(i, k)], inner, open);
    PlayConcat(plans, [Enter(i, k)] + inner, [Exit(i, k)], open);
    assert Around(plans, i, k + 1) == open + [Frame(i, k)];
    forall p, q | 0 <= p < q < |seg| && seg[p].Done?
      ensures seg[q].Exit? || (seg[q].Done? && seg[q].builder < seg[p].builder)
    {
      assert inner[p - 1] == seg[p];
      if q < |seg| - 1 { assert inner[q - 1] == seg[q]; }
    }
    forall p | 0 <= p < |seg| && seg[p].Done? ensures i <= seg[p].builder { assert inner[p - 1] == seg[p]; }
    forall j ensures Done(j) in seg <==> Done(j) in inner {}
  }

  lemma {:induction false} UnwindsMore(inner: seq<Event>, i: nat)
    requires Unwinds(inner) && DoneFrom(inner, i + 1)
    ensures Unwinds(inner + [Done(i)]) && DoneFrom(inner + [Done(i)], i)
    ensures forall j :: Done(j) in inner + [Done(i)] <==> Done(j) in inner || j == i
  {
    var seg := inner + [Done(i)];
    forall p, q | 0 <= p < q < |seg| && seg[p].Done?
      ensures seg[q].Exit? || (seg[q].Done? && seg[q].builder < seg[p].builder)
    {
      assert inner[p] == seg[p];
      if q < |inner| { assert inner[q] == seg[q]; }
    }
    assert seg[|inner|] == Done(i);
  }

  lemma {:induction false} FinishedIsProper(plans: seq<Plan>, s: State, t1: State, i: nat)
    requires i < |plans| && s.Sized(|plans|) && t1.Sized(|plans|)
    requires Proper(plans, s, t1, i, |plans[i].hooks|, i + 1)
    ensures Proper(plans, s, t1.Finished(i), i, |plans[i].hooks|, i)
  {
    var t, inner := t1.Finished(i), Added(s, t1);
    assert t.trace == s.trace + (inner + [Done(i)]);
    assert Added(s, t) == inner + [Done(i)];
    PlayFinished(plans, inner, i);
    UnwindsMore(inner, i);
  }

  lemma {:induction false} PlayFinished(plans: seq<Plan>, inner: seq<Event>, i: nat)
    requires i < |plans|
    requires Play(plans, inner, Around(plans, i, |plans[i].hooks|)) == Some(Around(plans, i, |plans[i].hooks|))
    ensures Play(plans, inner + [Done(i)], Around(plans, i, |plans[i].hooks|)) ==
            Some(Around(plans, i, |plans[i].hooks|))
  {
    PlayConcat(plans, inner, [Done(i)], Around(plans, i, |plans[i].hooks|));
  }

  /** Whatever the hooks do, the trace of a mutator is properly nested and unwinds in order. */
  lemma {:induction false} MutatedIsProper(env: Env, plans: seq<Plan>, s: State, i: nat, k: nat)
    requires i < |plans| && s.Sized(|plans|) && k <= |plans[i].hooks|
    ensures Proper(plans, s, Mutated(env, plans, s, i, k).state, i, k, i)
    decreases |plans| - i, 1 + |plans[i].hooks| - k
  {
    var t := Mutated(env, plans, s, i, k).state;
    if k < |plans[i].hooks| {
      var edited := plans[i].hooks[k].edit(s.drafts[i]);
      var s1 := s.Log(Enter(i, k));
      if edited.Success? {
        var s2 := s1.Edited(i, edited.value);
        MutatedIsProper(env, plans, s2, i, k + 1);
        WrappedIsProper(plans, s, s2, Mutated(env, plans, s2, i, k + 1).state, i, k);
      } else {
        NothingIsProper(plans, s1, i, k + 1, i);
        WrappedIsProper(plans, s, s1, s1, i, k);
      }
    } else if CheckError(env.runtime, s.drafts[i]).Some? {
      NothingIsProper(plans, s, i, k, i);
    } else {
      var s1 := s.Created(i, SpecOf(env.runtime, s.drafts[i], plans[i].conflict), NodeOf(s.drafts[i]));
      ForwardedIsProper(env, plans, s1, i);
      var behind := Forwarded(env, plans, s1, i);
      SameTrace(plans, s, s1, behind.state, i);
      if behind.error.None? { FinishedIsProper(plans, s, behind.state, i); }
    }
  }

  lemma {:induction false} NothingIsProper(plans: seq<Plan>, s: State, b: nat, h: nat, from: nat)
    requires b < |plans| && h <= |plans[b].hooks| && s.Sized(|plans|)
    ensures Proper(plans, s, s, b, h, from)
  {
    assert Added(s, s) == [];
  }

  lemma {:induction false} SameTrace(plans: seq<Plan>, s: State, s1: State, t: State, i: nat)
    requires i < |plans| && s.Sized(|plans|) && s1.Sized(|plans|) && t.Sized(|plans|)
    requires s1.trace == s.trace && s1.done == s.done && Proper(plans, s1, t, i, |plans[i].hooks|, i + 1)
    ensures Proper(plans, s, t, i, |plans[i].hooks|, i + 1) && Proper(plans, s, t, i, |plans[i].hooks|, i)
  {
    assert Added(s, t) == Added(s1, t);
  }

  lemma {:induction false} ForwardedIsProper(env: Env, plans: seq<Plan>, s: State, i: nat)
    requires i < |plans| && s.Sized(|plans|)
    ensures Proper(plans, s, Forwarded(env, plans, s, i).state, i, |plans[i].hooks|, i + 1)
    decreases |plans| - i, 0
  {
    if i + 1 < |plans| {
      MutatedIsProper(env, plans, s, i + 1, 0);
      assert Around(plans, i + 1, 0) == Around(plans, i, |plans[i].hooks|);
    } else {
      var t := Forwarded(env, plans, s, i).state;
      assert Added(s, t) == [Insertion];
    }
  }

  /** A bulk save calls its hooks properly nested: builder i's hooks, in list order, around everything
      that happens for the builders after it. The insertion comes before any mutation is done, and
      the mutations are done from the last builder to the first. */
  lemma {:induction false} SavedIsNested(env: Env, plans: seq<Plan>, drafts: seq<Draft>, batches: seq<seq<Spec>>)
    requires |plans| == |drafts|
    ensures Play(plans, Saved(env, plans, drafts, batches).state.trace, []) == Some([])
    ensures Unwinds(Saved(env, plans, drafts, batches).state.trace)
    ensures forall j | 0 <= j < |plans| ::
      Saved(env, plans, drafts, batches).state.done[j] <==> Done(j) in Saved(env, plans, drafts, batches).state.trace
  {
    var s := Start(env.runtime, drafts, batches);
    if plans != [] {
      MutatedIsProper(env, plans, s, 0, 0);
      var t := Mutated(env, plans, s, 0, 0).state;
      assert Added(s, t) == t.trace;
    }
  }
}
