/** The parts of a query builder that do not depend on its table: preparing it and choosing the
    columns of its query spec. */
module Preparing {
  import opened Wrappers
  import opened Relational
  import opened Schema
  import opened Queries

  /** Runs the interceptors in turn, each of which may add a predicate or stop the query. */
  method Traverse<R>(c: Criteria<R>) returns (err: Option<Error>, prepared: Criteria<R>)
    ensures err == PrepareError(c.inters)
    ensures err.None? ==> prepared == Prepared(c)
  {
    prepared := c;
    for i := 0 to |c.inters|
      invariant PrepareError(c.inters) == PrepareError(c.inters[i..])
      invariant prepared == c.(preds := prepared.preds)
      invariant PrepareError(c.inters).None? ==>
        prepared.preds + AddedPredicates(c.inters[i..]) == c.preds + AddedPredicates(c.inters)
    {
      assert c.inters[i..][0] == c.inters[i] && c.inters[i..][1..] == c.inters[i + 1..];
      match c.inters[i] {
        case Uninitialized => return Some(UninitializedInterceptor), prepared;
        case FailingTraverser(reason) => return Some(TraverserFailed(reason)), prepared;
        case Traverser(visible) => prepared := prepared.(preds := prepared.preds + [visible]);
      }
    }
    return None, prepared;
  }

  method Validate<C(==)>(fields: seq<C>, columns: seq<C>) returns (err: Option<Error>)
    ensures err == if exists i | 0 <= i < |fields| :: fields[i] !in columns then Some(InvalidField) else None
  {
    for i := 0 to |fields|
      invariant forall j | 0 <= j < i :: fields[j] in columns
    {
      if fields[i] !in columns { return Some(InvalidField); }
    }
    return None;
  }

  /** A query is prepared without an error exactly if every interceptor is there and succeeds and every selected field
      is a column. */
  lemma PreparesExactly<R, C(!new)>(inters: seq<Interceptor<R>>, fields: seq<C>, columns: seq<C>)
    ensures Prepare(inters, fields, columns).None? <==>
            (forall i | 0 <= i < |inters| :: inters[i].Traverser?) && forall f | f in fields :: f in columns
    ensures (forall i | 0 <= i < |inters| :: inters[i].Traverser?) && !(forall f | f in fields :: f in columns) ==>
      Prepare(inters, fields, columns) == Some(InvalidField)
  {
    var at := PrepareErrorFirst(inters);
  }

  lemma LeafPrepares(q: LeafQ)
    ensures PrepareLeaf(q).None? <==>
            && (forall i | 0 <= i < |q.criteria.inters| :: q.criteria.inters[i].Traverser?)
            && forall f | f in q.fields :: f == "id" || f in q.columns
  {
    PreparesExactly(q.criteria.inters, q.fields, ["id"] + q.columns);
  }

  lemma AccountPrepares(q: AccountQ)
    ensures Prepare(q.criteria.inters, q.fields, ACCOUNT_COLUMNS).None? <==>
            && (forall i | 0 <= i < |q.criteria.inters| :: q.criteria.inters[i].Traverser?)
            && forall f | f in q.fields :: !f.OtherColumn?
  {
    PreparesExactly(q.criteria.inters, q.fields, ACCOUNT_COLUMNS);
    forall f | f in q.fields ensures f in ACCOUNT_COLUMNS <==> !f.OtherColumn? { ColumnIsKnown(f); }
  }

  lemma ColumnIsKnown(f: AccountColumn)
    ensures f in ACCOUNT_COLUMNS <==> !f.OtherColumn?
  {
    if f in ACCOUNT_COLUMNS {
      var i :| 0 <= i < |ACCOUNT_COLUMNS| && ACCOUNT_COLUMNS[i] == f;
      ColumnsInOrder(i);
    } else if !f.OtherColumn? {
      KnownColumns(f);
    }
  }

  lemma KeepStep<R>(p: R -> bool, rows: seq<R>, n: nat)
    requires n < |rows|
    ensures Keep(p, rows[..n + 1]) == Keep(p, rows[..n]) + if p(rows[n]) then [rows[n]] else []
  {
    assert rows[..n + 1] == rows[..n] + [rows[n]];
    KeepConcat(p, rows[..n], [rows[n]]);
    assert Keep(p, [rows[n]]) == if p(rows[n]) then [rows[n]] else [];
  }

  /** The columns of a selection on a table with an id column. */
  method SelectColumns<C(==,!new)>(id: C, fields: seq<C>) returns (columns: seq<C>)
    ensures columns == IDThen(id, fields)
  {
    columns := [id];
    for i := 0 to |fields|
      invariant columns == IDThen(id, fields[..i])
    {
      KeepStep(f => f != id, fields, i);
      if fields[i] != id { columns := columns + [fields[i]]; }
    }
    assert fields[..|fields|] == fields;
  }

  /** The id comes first and only once, whatever was asked for. */
  lemma IDThenOnce<C(!new)>(id: C, fields: seq<C>)
    ensures IDThen(id, fields)[0] == id && id !in IDThen(id, fields)[1..]
    ensures forall c :: c in IDThen(id, fields) <==> c == id || c in fields
  {
    KeepMembers(f => f != id, fields);
  }

  /** The other columns are there as often as they were asked for. */
  lemma IDThenCount<C(!new)>(id: C, fields: seq<C>, c: C)
    ensures multiset(IDThen(id, fields))[c] == if c == id then 1 else multiset(fields)[c]
  {
    KeepCount(f => f != id, fields, c);
  }
}
