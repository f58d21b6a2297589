/** When the order of an account's groups depends on the accounts that it is loaded with. */
module Ordering {
  import opened Relational
  import opened Schema
  import opened Joins
  import opened Queries
  import opened Stages
  import opened Grouping

  /** An account gets its groups in the same order, whatever batch it is loaded in. */
  ghost predicate OrderKept(q: LeafQ) {
    forall db, ids, id | ValidSnapshot(db) && id in ids ::
      GroupsFor(GroupStream(db, q, ids), id) == GroupsFor(GroupStream(db, q, [id]), id)
  }

  /** The query gives different ranks to any two groups that it lets through. */
  ghost predicate RanksEveryGroup(c: Criteria<LeafRow>) {
    forall r, s | Selects(c, r) && Selects(c, s) && r.id != s.id :: c.order(r) != c.order(s)
  }

  lemma RanksTheseGroups(db: Snapshot, c: Criteria<LeafRow>)
    requires ValidSnapshot(db) && RanksEveryGroup(c)
    ensures RanksApart(db.groups, c)
  {
    forall r, s | r in db.groups && s in db.groups && Selects(c, r) && Selects(c, s) && c.order(r) == c.order(s)
      ensures r == s
    {
      SameKey(LeafKey, db.groups, r, s);
    }
  }

  // ----- two groups of one rank -----

  /** Account 2 is in the first group, account 1 in both, but its row for the second comes first. */
  function Crossed(r: LeafRow, s: LeafRow): (db: Snapshot)
    requires r.id != s.id
    ensures ValidSnapshot(db)
  {
    Snapshot([], [r, s], [], [JoinTableRow(2, r.id, 0, 0), JoinTableRow(1, s.id, 0, 0), JoinTableRow(1, r.id, 0, 0)])
  }

  lemma {:induction false} SortTied<R>(order: R -> int, rows: seq<R>)
    requires forall r, s | r in rows && s in rows :: order(r) == order(s)
    ensures Sort(order, rows) == rows
  {
    if rows == [] {
    } else {
      SortTied(order, rows[1..]);
      assert rows[1..] != [] ==> rows[1] in rows && rows[1..][0] == rows[1];
      assert rows == [rows[0]] + rows[1..];
    }
  }

  lemma JoinWithTwo(join: JoinTableRow, r: LeafRow, s: LeafRow)
    requires r.id != s.id && (join.groupID == r.id || join.groupID == s.id)
    ensures JoinWith(join, [r, s]) == [JoinRow(join.accountID, if join.groupID == r.id then r else s)]
  {
    assert [r, s][..1] == [r] && [r][..0] == [];
    assert JoinWith(join, [r]) == if join.groupID == r.id then [JoinRow(join.accountID, r)] else [];
  }

  lemma CrossedTable(r: LeafRow, s: LeafRow)
    requires r.id != s.id
    ensures JoinTable(Crossed(r, s).accountGroups, [r, s]) == [JoinRow(2, r), JoinRow(1, s), JoinRow(1, r)]
  {
    var a, b, d := JoinTableRow(2, r.id, 0, 0), JoinTableRow(1, s.id, 0, 0), JoinTableRow(1, r.id, 0, 0);
    JoinWithTwo(a, r, s);
    JoinWithTwo(b, r, s);
    JoinWithTwo(d, r, s);
    ThreeJoins(a, b, d, [r, s]);
    assert Crossed(r, s).accountGroups == [a, b, d];
  }

  lemma ThreeJoins(a: JoinTableRow, b: JoinTableRow, d: JoinTableRow, groups: seq<LeafRow>)
    ensures JoinTable([a, b, d], groups) == JoinWith(a, groups) + JoinWith(b, groups) + JoinWith(d, groups)
  {
    JoinTableMore([], a, groups);
    JoinTableMore([a], b, groups);
    JoinTableMore([a, b], d, groups);
    assert [] + [a] == [a] && [a] + [b] == [a, b] && [a, b] + [d] == [a, b, d];
  }

  lemma JoinTableMore(joins: seq<JoinTableRow>, join: JoinTableRow, groups: seq<LeafRow>)
    ensures JoinTable(joins + [join], groups) == JoinTable(joins, groups) + JoinWith(join, groups)
  {
    assert (joins + [join])[..|joins|] == joins;
  }

  /** Rows of one rank are selected in the order of the table. */
  lemma TiedRows<R>(c: Criteria<R>, a: R, b: R, d: R)
    requires Unwindowed(c) && Selects(c, b) && Selects(c, d) && c.order(a) == c.order(b) == c.order(d)
    ensures SelectRows(c, [a, b, d]) == (if Selects(c, a) then [a] else []) + [b, d]
  {
    var p := j => Selects(c, j);
    KeepAll(p, [b, d]);
    KeepConcat(p, [a], [b, d]);
    assert [a] + [b, d] == [a, b, d];
    assert Keep(p, [a]) == if p(a) then [a] else [];
    SortTied(c.order, Keep(p, [a, b, d]));
  }

  /** The rows that the query streams for these accounts, in the order of the join table. */
  lemma CrossedStream(q: LeafQ, r: LeafRow, s: LeafRow, ids: seq<int>)
    requires r.id != s.id && Selects(q.criteria, r) && Selects(q.criteria, s)
    requires q.criteria.order(r) == q.criteria.order(s)
    requires Unwindowed(q.criteria) && 1 in ids
    ensures
      var cols := LeafColumns(q);
      GroupStream(Crossed(r, s), q, ids) ==
      (if 2 in ids then [JoinRow(2, ProjectLeaf(cols, r))] else []) +
      [JoinRow(1, ProjectLeaf(cols, s)), JoinRow(1, ProjectLeaf(cols, r))]
  {
    var c, a, b, d := Lift(q.criteria, ids), JoinRow(2, r), JoinRow(1, s), JoinRow(1, r);
    CrossedTable(r, s);
    LiftSelects(q.criteria, ids, a);
    LiftSelects(q.criteria, ids, b);
    LiftSelects(q.criteria, ids, d);
    TiedRows(c, a, b, d);
    assert SelectRows(c, [a, b, d]) == (if 2 in ids then [a] else []) + [b, d];
  }

  lemma FirstsOfTwo(account: int, a: JoinRow, b: JoinRow)
    requires a.group.id != b.group.id && a.accountID == b.accountID == account
    ensures GroupsFor([a, b], account) == [a.group, b.group]
  {
    var stream := [a, b];
    assert stream[..1] == [a] && [a][..0] == [];
    assert Firsts([a]) == [a.group];
    assert !Mentions([a.group], b.group.id);
    assert Firsts(stream) == [a.group, b.group];
    assert stream[0] == a && stream[1] == b;
    KeepAll((g: LeafRow) => Joined(stream, account, g.id), Firsts(stream));
  }

  lemma FirstsOfThree(account: int, a: JoinRow, b: JoinRow, d: JoinRow)
    requires a.group.id != b.group.id && d.group == a.group && b.accountID == d.accountID == account
    ensures GroupsFor([a, b, d], account) == [a.group, b.group]
  {
    var stream := [a, b, d];
    assert stream[..2] == [a, b] && [a, b][..1] == [a] && [a][..0] == [];
    assert Firsts([a]) == [a.group];
    assert !Mentions([a.group], b.group.id);
    assert Firsts([a, b]) == [a.group, b.group];
    assert [a.group, b.group][0].id == d.group.id;
    assert Firsts(stream) == [a.group, b.group];
    assert stream[1] == b && stream[2] == d;
    KeepAll((g: LeafRow) => Joined(stream, account, g.id), Firsts(stream));
  }

  /** Loaded with account 2, account 1 gets two groups of one rank the other way round. */
  lemma TiedGroupsSwap(q: LeafQ, r: LeafRow, s: LeafRow)
    requires r.id != s.id && Selects(q.criteria, r) && Selects(q.criteria, s)
    requires q.criteria.order(r) == q.criteria.order(s)
    requires Unwindowed(q.criteria)
    ensures
      var cols := LeafColumns(q);
      && GroupsFor(GroupStream(Crossed(r, s), q, [1, 2]), 1) == [ProjectLeaf(cols, r), ProjectLeaf(cols, s)]
      && GroupsFor(GroupStream(Crossed(r, s), q, [1]), 1) == [ProjectLeaf(cols, s), ProjectLeaf(cols, r)]
  {
    var cols := LeafColumns(q);
    LeafColumnsKeep(q);
    var a, b, d := JoinRow(2, ProjectLeaf(cols, r)), JoinRow(1, ProjectLeaf(cols, s)), JoinRow(1, ProjectLeaf(cols, r));
    CrossedStream(q, r, s, [1, 2]);
    CrossedStream(q, r, s, [1]);
    assert [a] + [b, d] == [a, b, d] && [] + [b, d] == [b, d];
    FirstsOfThree(1, a, b, d);
    FirstsOfTwo(1, b, d);
  }

  /** The order of an account's groups is independent of the batch if and only if the group query ranks all the
      groups that it lets through apart. It then is the order of the query. */
  lemma OrderKeptIffRanked(q: LeafQ)
    requires Unwindowed(q.criteria)
    ensures OrderKept(q) <==> RanksEveryGroup(q.criteria)
  {
    if RanksEveryGroup(q.criteria) {
      forall db, ids, id | ValidSnapshot(db) && id in ids
        ensures GroupsFor(GroupStream(db, q, ids), id) == GroupsFor(GroupStream(db, q, [id]), id)
      {
        RanksTheseGroups(db, q.criteria);
        GroupsInOrder(db, q, ids, id);
        GroupsInOrder(db, q, [id], id);
      }
    } else {
      var db, ids, id := SomeSwap(q);
    }
  }

  lemma SomeSwap(q: LeafQ) returns (db: Snapshot, ids: seq<int>, id: int)
    requires Unwindowed(q.criteria) && !RanksEveryGroup(q.criteria)
    ensures ValidSnapshot(db) && id in ids
    ensures GroupsFor(GroupStream(db, q, ids), id) != GroupsFor(GroupStream(db, q, [id]), id)
  {
    var r, s :| Selects(q.criteria, r) && Selects(q.criteria, s) && r.id != s.id &&
                q.criteria.order(r) == q.criteria.order(s);
    db, ids, id := Crossed(r, s), [1, 2], 1;
    TiedGroupsSwap(q, r, s);
    LeafColumnsKeep(q);
    assert ProjectLeaf(LeafColumns(q), r).id == r.id && ProjectLeaf(LeafColumns(q), s).id == s.id;
  }
}
