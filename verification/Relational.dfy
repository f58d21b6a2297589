/** The relational meaning of a SELECT, as far as the query builders rely on it: a filter over a
    table, a ranking, and a window. Every builder shares these criteria. */
module Relational {
  import opened Wrappers

  /** math.MaxInt32, the limit that accompanies an offset that came without one. */
  const MAX_INT32: nat := 0x7FFF_FFFF

  /** What an interceptor does when a query is prepared. A Traverser may add a predicate, as the
      soft-delete mixin does; a missing one stands for a forgotten import of ent/runtime. */
  datatype Interceptor<!R> =
    | Uninitialized
    | Traverser(visible: R -> bool)
    | FailingTraverser(reason: string)

  datatype Criteria<!R> = Criteria(
    preds: seq<R -> bool>,
    inters: seq<Interceptor<R>>,
    order: R -> int,
    limit: Option<nat>,
    offset: Option<nat>)

  datatype Error =
    | UninitializedInterceptor
    | TraverserFailed(reason: string)
    | InvalidField
    | UnexpectedForeignKey(id: int)
    | UnexpectedReference(key: int)
    | NilForeignKey(id: int)
    | UnexpectedNode(id: int)
    | UnexpectedType
    | ValueMismatch

  /** Appends one predicate, as Where does. */
  function Narrow<R>(c: Criteria<R>, p: R -> bool): Criteria<R> {
    c.(preds := c.preds + [p])
  }

  predicate AllHold<R>(preds: seq<R -> bool>, r: R) {
    preds == [] || (preds[0](r) && AllHold(preds[1..], r))
  }

  predicate Visible<R>(inters: seq<Interceptor<R>>, r: R) {
    inters == [] || ((inters[0].Traverser? ==> inters[0].visible(r)) && Visible(inters[1..], r))
  }

  predicate Selects<R>(c: Criteria<R>, r: R) {
    AllHold(c.preds, r) && Visible(c.inters, r)
  }

  /** The error that preparing a query with these interceptors runs into, if any. */
  function PrepareError<R>(inters: seq<Interceptor<R>>): Option<Error> {
    if inters == [] then None
    else match inters[0]
      case Uninitialized => Some(UninitializedInterceptor)
      case FailingTraverser(reason) => Some(TraverserFailed(reason))
      case Traverser(_) => PrepareError(inters[1..])
  }

  /** Preparing fails at the first interceptor that fails or is missing, if there is one. */
  lemma {:induction false} PrepareErrorFirst<R>(inters: seq<Interceptor<R>>) returns (at: nat)
    ensures at <= |inters| && forall i | 0 <= i < at :: inters[i].Traverser?
    ensures PrepareError(inters).None? <==> at == |inters|
    ensures at < |inters| ==>
      && !inters[at].Traverser?
      && PrepareError(inters) == Some(if inters[at].Uninitialized? then UninitializedInterceptor
                                      else TraverserFailed(inters[at].reason))
  {
    at := 0;
    if inters != [] && inters[0].Traverser? {
      var rest := inters[1..];
      at := PrepareErrorFirst(rest);
      at := at + 1;
      assert forall i | 0 < i < |inters| :: inters[i] == rest[i - 1];
    }
  }

  /** The predicates that preparing a query adds to it. */
  function AddedPredicates<R>(inters: seq<Interceptor<R>>): seq<R -> bool> {
    if inters == [] || !inters[0].Traverser? then []
    else [inters[0].visible] + AddedPredicates(inters[1..])
  }

  function Keep<R>(p: R -> bool, rows: seq<R>): seq<R> {
    if rows == [] then []
    else (if p(rows[0]) then [rows[0]] else []) + Keep(p, rows[1..])
  }

  function Insert<R>(order: R -> int, x: R, rows: seq<R>): seq<R> {
    if rows == [] || order(x) <= order(rows[0]) then [x] + rows
    else [rows[0]] + Insert(order, x, rows[1..])
  }

  /** A stable sort: rows of equal rank keep the order in which the table has them. */
  function Sort<R>(order: R -> int, rows: seq<R>): seq<R> {
    if rows == [] then [] else Insert(order, rows[0], Sort(order, rows[1..]))
  }

  function Take<R>(n: nat, rows: seq<R>): seq<R> {
    if n <= |rows| then rows[..n] else rows
  }

  function Window<R>(limit: Option<nat>, offset: Option<nat>, rows: seq<R>): seq<R> {
    match offset
    case None => (match limit case None => rows case Some(n) => Take(n, rows))
    case Some(skip) =>
      var rest := if skip <= |rows| then rows[skip..] else [];
      (match limit case None => Take(MAX_INT32, rest) case Some(n) => Take(n, rest))
  }

  /** A zero in the query spec cannot be told from a field that was never set. */
  function NonZero(n: Option<nat>): Option<nat> {
    if n == Some(0) then None else n
  }

  ghost predicate Unwindowed<R>(c: Criteria<R>) {
    NonZero(c.limit) == None && NonZero(c.offset) == None
  }

  function Filtered<R>(c: Criteria<R>, table: seq<R>): seq<R> {
    Sort(c.order, Keep(r => Selects(c, r), table))
  }

  /** The rows a query spec built from these criteria selects. */
  function SelectRows<R>(c: Criteria<R>, table: seq<R>): seq<R> {
    Window(NonZero(c.limit), NonZero(c.offset), Filtered(c, table))
  }

  ghost predicate UniqueBy<R, K>(key: R -> K, rows: seq<R>) {
    forall i, j | 0 <= i < j < |rows| :: key(rows[i]) != key(rows[j])
  }

  ghost predicate Ranked<R>(order: R -> int, rows: seq<R>) {
    forall i, j | 0 <= i < j < |rows| :: order(rows[i]) <= order(rows[j])
  }

  // ----- filtering -----

  lemma {:induction false} KeepMember<R>(p: R -> bool, rows: seq<R>, r: R)
    ensures r in Keep(p, rows) <==> r in rows && p(r)
  {
    if rows == [] {
    } else {
      KeepMember(p, rows[1..], r);
      assert rows == [rows[0]] + rows[1..];
    }
  }

  lemma KeepMembers<R>(p: R -> bool, rows: seq<R>)
    ensures forall r :: r in Keep(p, rows) <==> r in rows && p(r)
  {
    forall r ensures r in Keep(p, rows) <==> r in rows && p(r) { KeepMember(p, rows, r); }
  }

  /** Filtering keeps a row as often as it was there, or not at all. */
  lemma {:induction false} KeepCount<R>(p: R -> bool, rows: seq<R>, r: R)
    ensures multiset(Keep(p, rows))[r] == if p(r) then multiset(rows)[r] else 0
  {
    if rows == [] {
    } else {
      KeepCount(p, rows[1..], r);
      assert rows == [rows[0]] + rows[1..];
    }
  }

  lemma {:induction false} KeepSame<R>(p: R -> bool, q: R -> bool, rows: seq<R>)
    requires forall r | r in rows :: p(r) == q(r)
    ensures Keep(p, rows) == Keep(q, rows)
  {
    if rows == [] {
    } else {
      assert rows[0] in rows;
      KeepSame(p, q, rows[1..]);
    }
  }

  lemma {:induction false} KeepTwice<R>(p: R -> bool, q: R -> bool, rows: seq<R>)
    ensures Keep(q, Keep(p, rows)) == Keep(r => p(r) && q(r), rows)
  {
    if rows == [] {
    } else {
      KeepTwice(p, q, rows[1..]);
      if p(rows[0]) {
        assert Keep(p, rows) == [rows[0]] + Keep(p, rows[1..]);
        assert Keep(p, rows)[1..] == Keep(p, rows[1..]);
      } else {
        assert Keep(p, rows) == Keep(p, rows[1..]);
      }
    }
  }

  lemma {:induction false} KeepAll<R>(p: R -> bool, rows: seq<R>)
    requires forall r | r in rows :: p(r)
    ensures Keep(p, rows) == rows
  {
    if rows == [] {
    } else {
      assert rows[0] in rows;
      KeepAll(p, rows[1..]);
    }
  }

  lemma {:induction false} KeepConcat<R>(p: R -> bool, a: seq<R>, b: seq<R>)
    ensures Keep(p, a + b) == Keep(p, a) + Keep(p, b)
  {
    if a == [] {
      assert a + b == b;
    } else {
      assert (a + b)[0] == a[0] && (a + b)[1..] == a[1..] + b;
      KeepConcat(p, a[1..], b);
      var head := if p(a[0]) then [a[0]] else [];
      assert head + (Keep(p, a[1..]) + Keep(p, b)) == (head + Keep(p, a[1..])) + Keep(p, b);
    }
  }

  /** Picking rows at increasing positions. */
  ghost predicate Picked<R>(rows: seq<R>, at: seq<nat>, picked: seq<R>) {
    && |at| == |picked|
    && (forall i | 0 <= i < |at| :: at[i] < |rows| && rows[at[i]] == picked[i])
    && forall i, j | 0 <= i < j < |at| :: at[i] < at[j]
  }

  lemma PickedMore<R>(rows: seq<R>, at: seq<nat>, picked: seq<R>, x: R)
    requires Picked(rows, at, picked)
    ensures Picked(rows + [x], at, picked) && Picked(rows + [x], at + [|rows|], picked + [x])
  {
    var more := at + [|rows|];
    forall i | 0 <= i < |more| ensures more[i] < |rows + [x]| && (rows + [x])[more[i]] == (picked + [x])[i] {
      if i < |at| { assert more[i] == at[i]; }
    }
    forall i, j | 0 <= i < j < |more| ensures more[i] < more[j] {
      assert more[i] == at[i];
    }
  }

  /** Filtering keeps the order of the rows. */
  lemma {:induction false} KeepPositions<R>(p: R -> bool, rows: seq<R>) returns (at: seq<nat>)
    ensures Picked(rows, at, Keep(p, rows))
  {
    if rows == [] {
      at := [];
    } else {
      var n := |rows| - 1;
      at := KeepPositions(p, rows[..n]);
      PickedMore(rows[..n], at, Keep(p, rows[..n]), rows[n]);
      assert rows[..n] + [rows[n]] == rows;
      KeepConcat(p, rows[..n], [rows[n]]);
      assert Keep(p, [rows[n]]) == if p(rows[n]) then [rows[n]] else [];
      if p(rows[n]) { at := at + [n]; } else { assert Keep(p, rows) == Keep(p, rows[..n]); }
    }
  }

  lemma UniqueCons<R, K>(key: R -> K, x: R, rows: seq<R>)
    requires UniqueBy(key, rows)
    requires forall r | r in rows :: key(r) != key(x)
    ensures UniqueBy(key, [x] + rows)
  {
    var all := [x] + rows;
    forall i, j | 0 <= i < j < |all| ensures key(all[i]) != key(all[j]) {
      assert all[j] == rows[j - 1];
      if i == 0 { assert rows[j - 1] in rows; } else { assert all[i] == rows[i - 1]; }
    }
  }

  lemma SameKey<R, K>(key: R -> K, rows: seq<R>, r: R, s: R)
    requires UniqueBy(key, rows) && r in rows && s in rows && key(r) == key(s)
    ensures r == s
  {
    var i :| 0 <= i < |rows| && rows[i] == r;
    var j :| 0 <= j < |rows| && rows[j] == s;
    assert key(rows[i]) == key(rows[j]);
  }

  lemma UniqueTail<R, K>(key: R -> K, rows: seq<R>, from: nat)
    requires UniqueBy(key, rows) && from <= |rows|
    ensures UniqueBy(key, rows[from..])
  {
    forall i, j | 0 <= i < j < |rows[from..]| ensures key(rows[from..][i]) != key(rows[from..][j]) {
      assert rows[from..][i] == rows[from + i] && rows[from..][j] == rows[from + j];
    }
  }

  lemma {:induction false} KeepUnique<R, K>(key: R -> K, p: R -> bool, rows: seq<R>)
    requires UniqueBy(key, rows)
    ensures UniqueBy(key, Keep(p, rows))
  {
    if rows == [] {
    } else {
      var rest := rows[1..];
      KeepUnique(key, p, rest);
      forall r | r in Keep(p, rest) ensures key(r) != key(rows[0]) {
        KeepMember(p, rest, r);
        var j :| 0 <= j < |rest| && rest[j] == r;
        assert rows[j + 1] == r;
      }
      UniqueCons(key, rows[0], Keep(p, rest));
    }
  }

  lemma {:induction false} KeepNone<R>(p: R -> bool, rows: seq<R>)
    requires forall r | r in rows :: !p(r)
    ensures Keep(p, rows) == []
  {
    if rows == [] {
    } else {
      assert rows[0] in rows;
      KeepNone(p, rows[1..]);
    }
  }

  /** Filtering rows with unique keys for one key leaves at most one row. */
  lemma {:induction false} KeepOne<R>(key: R -> int, k: int, rows: seq<R>)
    requires UniqueBy(key, rows)
    ensures |Keep(r => key(r) == k, rows)| <= 1
  {
    if rows == [] {
    } else {
      var rest := rows[1..];
      UniqueTail(key, rows, 1);
      KeepOne(key, k, rest);
      if key(rows[0]) == k {
        forall r | r in rest ensures key(r) != k {
          var j :| 0 <= j < |rest| && rest[j] == r;
          assert rows[j + 1] == r;
        }
        KeepNone(r => key(r) == k, rest);
      }
    }
  }

  // ----- sorting -----

  lemma {:induction false} InsertMember<R>(order: R -> int, x: R, rows: seq<R>, r: R)
    ensures r in Insert(order, x, rows) <==> r == x || r in rows
  {
    if rows == [] || order(x) <= order(rows[0]) {
    } else {
      InsertMember(order, x, rows[1..], r);
      assert rows == [rows[0]] + rows[1..];
    }
  }

  lemma {:induction false} InsertRanked<R>(order: R -> int, x: R, rows: seq<R>)
    requires Ranked(order, rows)
    ensures Ranked(order, Insert(order, x, rows))
  {
    if rows == [] || order(x) <= order(rows[0]) {
    } else {
      InsertRanked(order, x, rows[1..]);
      forall r | r in Insert(order, x, rows[1..]) ensures order(rows[0]) <= order(r) {
        InsertMember(order, x, rows[1..], r);
      }
    }
  }

  lemma {:induction false} InsertUnique<R, K>(key: R -> K, order: R -> int, x: R, rows: seq<R>)
    requires UniqueBy(key, rows)
    requires forall r | r in rows :: key(r) != key(x)
    ensures UniqueBy(key, Insert(order, x, rows))
  {
    if rows == [] || order(x) <= order(rows[0]) {
      UniqueCons(key, x, rows);
    } else {
      var rest := rows[1..];
      UniqueTail(key, rows, 1);
      InsertUnique(key, order, x, rest);
      forall r | r in Insert(order, x, rest) ensures key(r) != key(rows[0]) {
        InsertMember(order, x, rest, r);
        if r in rest {
          var j :| 0 <= j < |rest| && rest[j] == r;
          assert rows[j + 1] == r;
        }
      }
      UniqueCons(key, rows[0], Insert(order, x, rest));
    }
  }

  lemma {:induction false} SortMember<R>(order: R -> int, rows: seq<R>, r: R)
    ensures r in Sort(order, rows) <==> r in rows
  {
    if rows == [] {
    } else {
      SortMember(order, rows[1..], r);
      InsertMember(order, rows[0], Sort(order, rows[1..]), r);
      assert rows == [rows[0]] + rows[1..];
    }
  }

  lemma {:induction false} SortRanked<R>(order: R -> int, rows: seq<R>)
    ensures Ranked(order, Sort(order, rows))
  {
    if rows == [] {
    } else {
      SortRanked(order, rows[1..]);
      InsertRanked(order, rows[0], Sort(order, rows[1..]));
    }
  }

  lemma {:induction false} SortUnique<R, K>(key: R -> K, order: R -> int, rows: seq<R>)
    requires UniqueBy(key, rows)
    ensures UniqueBy(key, Sort(order, rows))
  {
    if rows == [] {
    } else {
      var rest := rows[1..];
      UniqueTail(key, rows, 1);
      SortUnique(key, order, rest);
      var sorted := Sort(order, rest);
      forall r | r in sorted ensures key(r) != key(rows[0]) {
        SortMember(order, rest, r);
        var j :| 0 <= j < |rest| && rest[j] == r;
        assert rows[j + 1] == r;
      }
      InsertUnique(key, order, rows[0], sorted);
    }
  }

  /** There is only one way to rank rows of different ranks. */
  lemma {:induction false} RankedSame<R>(key: R -> int, order: R -> int, a: seq<R>, b: seq<R>)
    requires Ranked(order, a) && Ranked(order, b) && UniqueBy(key, a) && UniqueBy(key, b)
    requires forall r :: r in a <==> r in b
    requires forall r, s | r in a && s in a :: order(r) == order(s) ==> r == s
    ensures a == b
  {
    if a == [] || b == [] {
      if a != [] { HasMember(a); }
      if b != [] { HasMember(b); }
    } else {
      assert a[0] in a && b[0] in b;
      FirstIsLeast(order, a, b[0]);
      FirstIsLeast(order, b, a[0]);
      RestMembers(key, a);
      RestMembers(key, b);
      UniqueTail(key, a, 1);
      UniqueTail(key, b, 1);
      RankedTail(order, a);
      RankedTail(order, b);
      RankedSame(key, order, a[1..], b[1..]);
    }
  }

  lemma HasMember<R>(rows: seq<R>)
    requires rows != []
    ensures exists r :: r in rows
  {
    assert rows[0] in rows;
  }

  lemma RankedTail<R>(order: R -> int, rows: seq<R>)
    requires Ranked(order, rows) && rows != []
    ensures Ranked(order, rows[1..]) && rows == [rows[0]] + rows[1..]
    ensures forall r | r in rows[1..] :: r in rows
  {
  }

  lemma FirstIsLeast<R>(order: R -> int, rows: seq<R>, r: R)
    requires Ranked(order, rows) && r in rows
    ensures order(rows[0]) <= order(r)
  {
    var i :| 0 <= i < |rows| && rows[i] == r;
    assert i > 0 ==> order(rows[0]) <= order(rows[i]);
  }

  lemma RestMembers<R, K>(key: R -> K, rows: seq<R>)
    requires UniqueBy(key, rows) && rows != []
    ensures forall r :: r in rows[1..] <==> r in rows && r != rows[0]
  {
    forall r | r in rows && r != rows[0] ensures r in rows[1..] { assert rows == [rows[0]] + rows[1..]; }
    forall r | r in rows[1..] ensures r != rows[0] {
      var i :| 0 <= i < |rows[1..]| && rows[1..][i] == r;
      assert rows[i + 1] == r;
    }
  }

  lemma {:induction false} KeepInsert<R>(order: R -> int, p: R -> bool, x: R, rows: seq<R>)
    requires Ranked(order, rows)
    ensures Keep(p, Insert(order, x, rows)) ==
            if p(x) then Insert(order, x, Keep(p, rows)) else Keep(p, rows)
  {
    if rows == [] || order(x) <= order(rows[0]) {
      assert Insert(order, x, rows)[1..] == rows;
      var kept := Keep(p, rows);
      if kept != [] {
        KeepMember(p, rows, kept[0]);
      }
    } else {
      var rest := rows[1..];
      KeepInsert(order, p, x, rest);
      assert Insert(order, x, rows)[1..] == Insert(order, x, rest);
      if p(rows[0]) {
        assert Keep(p, rows) == [rows[0]] + Keep(p, rest);
        assert Keep(p, rows)[1..] == Keep(p, rest);
      } else {
        assert Keep(p, rows) == Keep(p, rest);
      }
    }
  }

  lemma {:induction false} KeepSort<R>(order: R -> int, p: R -> bool, rows: seq<R>)
    ensures Keep(p, Sort(order, rows)) == Sort(order, Keep(p, rows))
  {
    if rows == [] {
    } else {
      KeepSort(order, p, rows[1..]);
      SortRanked(order, rows[1..]);
      KeepInsert(order, p, rows[0], Sort(order, rows[1..]));
      if p(rows[0]) {
        assert Keep(p, rows) == [rows[0]] + Keep(p, rows[1..]);
        assert Keep(p, rows)[1..] == Keep(p, rows[1..]);
      } else {
        assert Keep(p, rows) == Keep(p, rows[1..]);
      }
    }
  }

  // ----- selecting -----

  lemma {:induction false} AllHoldConcat<R>(a: seq<R -> bool>, b: seq<R -> bool>, r: R)
    ensures AllHold(a + b, r) <==> AllHold(a, r) && AllHold(b, r)
  {
    if a == [] {
      assert a + b == b;
    } else {
      assert (a + b)[0] == a[0] && (a + b)[1..] == a[1..] + b;
      AllHoldConcat(a[1..], b, r);
    }
  }

  lemma NarrowSelects<R>(c: Criteria<R>, p: R -> bool, r: R)
    ensures Selects(Narrow(c, p), r) <==> Selects(c, r) && p(r)
  {
    AllHoldConcat(c.preds, [p], r);
    assert AllHold([p], r) <==> p(r);
  }

  lemma SelectMember<R>(c: Criteria<R>, table: seq<R>, r: R)
    requires r in SelectRows(c, table)
    ensures r in table && Selects(c, r)
  {
    assert r in Filtered(c, table);
    SortMember(c.order, Keep(r => Selects(c, r), table), r);
    KeepMember(r => Selects(c, r), table, r);
  }

  lemma SelectComplete<R>(c: Criteria<R>, table: seq<R>, r: R)
    requires Unwindowed(c)
    ensures r in SelectRows(c, table) <==> r in table && Selects(c, r)
  {
    SortMember(c.order, Keep(r => Selects(c, r), table), r);
    KeepMember(r => Selects(c, r), table, r);
  }

  /** A row is selected exactly if every predicate holds of it and no interceptor hides it. */
  lemma SelectsExactly<R>(c: Criteria<R>, r: R)
    ensures Selects(c, r) <==>
            && (forall i | 0 <= i < |c.preds| :: c.preds[i](r))
            && forall i | 0 <= i < |c.inters| && c.inters[i].Traverser? :: c.inters[i].visible(r)
  {
    AllHoldExactly(c.preds, r);
    VisibleExactly(c.inters, r);
  }

  lemma {:induction false} AllHoldExactly<R>(preds: seq<R -> bool>, r: R)
    ensures AllHold(preds, r) <==> forall i | 0 <= i < |preds| :: preds[i](r)
  {
    if preds == [] {
    } else {
      AllHoldExactly(preds[1..], r);
      assert forall i | 0 < i < |preds| :: preds[i] == preds[1..][i - 1];
    }
  }

  lemma {:induction false} VisibleExactly<R>(inters: seq<Interceptor<R>>, r: R)
    ensures Visible(inters, r) <==> forall i | 0 <= i < |inters| && inters[i].Traverser? :: inters[i].visible(r)
  {
    if inters == [] {
    } else {
      VisibleExactly(inters[1..], r);
      assert forall i | 0 < i < |inters| :: inters[i] == inters[1..][i - 1];
    }
  }

  /** The filtered rows are the selected rows of the table, each as often as it is there, by rank, and in the order
      of the table among rows of one rank. */
  lemma FilteredExactly<R>(c: Criteria<R>, table: seq<R>)
    ensures forall r :: multiset(Filtered(c, table))[r] == if Selects(c, r) then multiset(table)[r] else 0
    ensures forall i, j | 0 <= i < j < |Filtered(c, table)| ::
      c.order(Filtered(c, table)[i]) <= c.order(Filtered(c, table)[j])
    ensures forall k ::
      Keep(OfRank(c.order, k), Filtered(c, table)) == Keep(OfRank(c.order, k), Keep(r => Selects(c, r), table))
  {
    var p := r => Selects(c, r);
    SortCount(c.order, Keep(p, table));
    SortRanked(c.order, Keep(p, table));
    forall r ensures multiset(Filtered(c, table))[r] == if Selects(c, r) then multiset(table)[r] else 0 {
      KeepCount(p, table, r);
    }
    forall k ensures Keep(OfRank(c.order, k), Filtered(c, table)) == Keep(OfRank(c.order, k), Keep(p, table)) {
      SortStable(c.order, k, Keep(p, table));
    }
  }

  function OfRank<R>(order: R -> int, k: int): R -> bool { r => order(r) == k }

  /** Rows of one rank keep their order. */
  lemma {:induction false} SortStable<R>(order: R -> int, k: int, rows: seq<R>)
    ensures Keep(OfRank(order, k), Sort(order, rows)) == Keep(OfRank(order, k), rows)
  {
    var p := OfRank(order, k);
    if rows == [] {
    } else {
      var rest := rows[1..];
      SortStable(order, k, rest);
      SortRanked(order, rest);
      KeepInsert(order, p, rows[0], Sort(order, rest));
      var kept := Keep(p, rest);
      if kept != [] { KeepMember(p, rest, kept[0]); }
    }
  }

  lemma {:induction false} InsertCount<R>(order: R -> int, x: R, rows: seq<R>)
    ensures multiset(Insert(order, x, rows)) == multiset{x} + multiset(rows)
  {
    if rows == [] || order(x) <= order(rows[0]) {
    } else {
      InsertCount(order, x, rows[1..]);
      assert rows == [rows[0]] + rows[1..];
    }
  }

  lemma {:induction false} SortCount<R>(order: R -> int, rows: seq<R>)
    ensures multiset(Sort(order, rows)) == multiset(rows)
  {
    if rows == [] {
    } else {
      SortCount(order, rows[1..]);
      InsertCount(order, rows[0], Sort(order, rows[1..]));
      assert rows == [rows[0]] + rows[1..];
    }
  }

  // ----- pages -----

  /** Where the page of a query begins. */
  function PageStart<R>(c: Criteria<R>): nat { if c.offset.Some? then c.offset.value else 0 }

  /** The rows of a page, if it has one: as many of these as there are from some position on, but no more than fit. */
  ghost predicate IsPage<R>(all: seq<R>, start: nat, most: nat, page: seq<R>) {
    && |page| == (if |all| <= start then 0 else if |all| - start <= most then |all| - start else most)
    && forall i | 0 <= i < |page| :: page[i] == all[start + i]
  }

  /** What a query returns is a page of its filtered rows: a limit other than zero is the size of the page; an
      offset other than zero without one leaves room for the largest limit; a query with neither returns all. */
  lemma SelectIsPage<R>(c: Criteria<R>, table: seq<R>)
    ensures
      var all, page := Filtered(c, table), SelectRows(c, table);
      if c.limit.Some? && c.limit.value > 0 then IsPage(all, PageStart(c), c.limit.value, page)
      else if c.offset.Some? && c.offset.value > 0 then IsPage(all, c.offset.value, 0x7FFF_FFFF, page)
      else page == all
  {
  }

  /** The page of a size that begins at a position. */
  function PageAt<R>(c: Criteria<R>, size: nat, start: nat, table: seq<R>): seq<R> {
    SelectRows(c.(limit := Some(size), offset := Some(start)), table)
  }

  /** The rows of the first pages of a size, one page after the other. */
  function Pages<R>(c: Criteria<R>, size: nat, count: nat, table: seq<R>): seq<R> {
    if count == 0 then [] else Pages(c, size, count - 1, table) + PageAt(c, size, (count - 1) * size, table)
  }

  lemma NextPage<R>(c: Criteria<R>, size: nat, start: nat, table: seq<R>, before: seq<R>)
    requires size > 0
    requires before == if start <= |Filtered(c, table)| then Filtered(c, table)[..start] else Filtered(c, table)
    ensures
      var all := Filtered(c, table);
      before + PageAt(c, size, start, table) == if start + size <= |all| then all[..start + size] else all
  {
    var paged := c.(limit := Some(size), offset := Some(start));
    SameFiltered(c, paged, table);
    SelectIsPage(paged, table);
  }

  /** Going through the pages of a query gives its filtered rows, none twice, none left out, in their order. */
  lemma {:induction false} PagesTile<R>(c: Criteria<R>, size: nat, count: nat, table: seq<R>)
    requires size > 0
    ensures
      var all := Filtered(c, table);
      Pages(c, size, count, table) == if count * size <= |all| then all[..count * size] else all
  {
    if count > 0 {
      var start := (count - 1) * size;
      PagesTile(c, size, count - 1, table);
      NextPage(c, size, start, table, Pages(c, size, count - 1, table));
      assert start + size == count * size;
    }
  }

  /** A page changes nothing about what is filtered. */
  lemma SameFiltered<R>(c: Criteria<R>, paged: Criteria<R>, table: seq<R>)
    requires paged == c.(limit := paged.limit, offset := paged.offset)
    ensures Filtered(paged, table) == Filtered(c, table)
  {
    KeepSame(r => Selects(paged, r), r => Selects(c, r), table);
  }

  lemma SelectUnique<R, K>(key: R -> K, c: Criteria<R>, table: seq<R>)
    requires UniqueBy(key, table)
    ensures UniqueBy(key, SelectRows(c, table))
  {
    KeepUnique(key, r => Selects(c, r), table);
    SortUnique(key, c.order, Keep(r => Selects(c, r), table));
    var all := Filtered(c, table);
    match NonZero(c.offset) {
      case Some(skip) => if skip <= |all| { UniqueTail(key, all, skip); }
      case None =>
    }
  }

  /** Without a window, adding a predicate to a query filters its result in place. */
  lemma SelectNarrow<R>(c: Criteria<R>, p: R -> bool, table: seq<R>)
    requires Unwindowed(c)
    ensures SelectRows(Narrow(c, p), table) == Keep(p, SelectRows(c, table))
  {
    var inner := r => Selects(c, r);
    KeepSort(c.order, p, Keep(inner, table));
    KeepTwice(inner, p, table);
    forall r ensures (inner(r) && p(r)) == Selects(Narrow(c, p), r) { NarrowSelects(c, p, r); }
    KeepSame(r => inner(r) && p(r), r => Selects(Narrow(c, p), r), table);
  }

  /** Preparing a query only spells out what its interceptors hide. */
  lemma {:induction false} AddedPredicatesHide<R>(inters: seq<Interceptor<R>>, r: R)
    requires PrepareError(inters) == None
    ensures AllHold(AddedPredicates(inters), r) <==> Visible(inters, r)
  {
    if inters == [] {
    } else {
      AddedPredicatesHide(inters[1..], r);
      assert AddedPredicates(inters)[1..] == AddedPredicates(inters[1..]);
    }
  }

  /** Criteria after the interceptors have added their predicates. */
  function Prepared<R>(c: Criteria<R>): Criteria<R> {
    c.(preds := c.preds + AddedPredicates(c.inters))
  }

  /** Criteria as the SQL sees them: interceptors play no further part. */
  function Plain<R>(c: Criteria<R>): Criteria<R> {
    c.(inters := [])
  }

  lemma PreparedSelects<R>(c: Criteria<R>, table: seq<R>)
    requires PrepareError(c.inters) == None
    ensures SelectRows(Plain(Prepared(c)), table) == SelectRows(c, table)
  {
    var p, q := r => Selects(Plain(Prepared(c)), r), r => Selects(c, r);
    forall r ensures p(r) == q(r) {
      AllHoldConcat(c.preds, AddedPredicates(c.inters), r);
      AddedPredicatesHide(c.inters, r);
    }
    KeepSame(p, q, table);
  }
}
