/** The groups edge: what an account of a batch gets is what it gets alone, and when the order is the same. */
module Grouping {
  import opened Relational
  import opened Schema
  import opened Joins
  import opened Queries
  import opened Stages

  // ----- one account alone -----

  predicate Linked(joins: seq<JoinTableRow>, account: int, group: int) {
    exists j | j in joins :: j.accountID == account && j.groupID == group
  }

  function LinkedTo(joins: seq<JoinTableRow>, account: int): LeafRow -> bool {
    (r: LeafRow) => Linked(joins, account, r.id)
  }

  /** The selected groups that the join table links to an account, in the order of the group query. */
  function LoneGroups(db: Snapshot, q: LeafQ, account: int): seq<LeafRow> {
    Leaves(db.groups, WhereLeaf(q, LinkedTo(db.accountGroups, account)))
  }

  function GroupsAlone(db: Snapshot, q: LeafQ, account: int): set<LeafRow> {
    set r | r in SelectRows(Narrow(q.criteria, LinkedTo(db.accountGroups, account)), db.groups) ::
      ProjectLeaf(LeafColumns(q), r)
  }

  /** No two groups that a query selects have the same rank. */
  ghost predicate RanksApart(table: seq<LeafRow>, c: Criteria<LeafRow>) {
    forall r, s | r in table && s in table && Selects(c, r) && Selects(c, s) :: c.order(r) == c.order(s) ==> r == s
  }

  // ----- what the stream is made of -----

  lemma StreamedGroup(db: Snapshot, q: LeafQ, ids: seq<int>, i: nat) returns (r: LeafRow)
    requires Unwindowed(q.criteria) && i < |GroupStream(db, q, ids)|
    ensures
      var j := GroupStream(db, q, ids)[i];
      && r in db.groups && Selects(q.criteria, r) && j.group == ProjectLeaf(LeafColumns(q), r) && j.group.id == r.id
      && Linked(db.accountGroups, j.accountID, r.id)
  {
    var c, table := Lift(q.criteria, ids), JoinTable(db.accountGroups, db.groups);
    var j := SelectRows(c, table)[i];
    SelectMember(c, table, j);
    LiftSelects(q.criteria, ids, j);
    JoinTableMember(db.accountGroups, db.groups, j);
    LeafColumnsKeep(q);
    r := j.group;
  }

  lemma GroupIsStreamed(db: Snapshot, q: LeafQ, ids: seq<int>, id: int, r: LeafRow)
    requires Unwindowed(q.criteria) && id in ids && r in db.groups && Selects(q.criteria, r)
    requires Linked(db.accountGroups, id, r.id)
    ensures JoinRow(id, ProjectLeaf(LeafColumns(q), r)) in GroupStream(db, q, ids)
  {
    var c, table := Lift(q.criteria, ids), JoinTable(db.accountGroups, db.groups);
    var j := JoinRow(id, r);
    JoinTableMember(db.accountGroups, db.groups, j);
    LiftSelects(q.criteria, ids, j);
    SelectComplete(c, table, j);
    var rows := SelectRows(c, table);
    var i :| 0 <= i < |rows| && rows[i] == j;
    assert GroupStream(db, q, ids)[i] == JoinRow(id, ProjectLeaf(LeafColumns(q), r));
  }

  /** The group rows behind the groups that a batch gives to an account: exactly the selected groups that are
      linked to it, each once, in the ranking of the group query. */
  ghost predicate Behind(db: Snapshot, q: LeafQ, ids: seq<int>, id: int, rows: seq<LeafRow>) {
    && GroupsFor(GroupStream(db, q, ids), id) == Map(r => ProjectLeaf(LeafColumns(q), r), rows)
    && Ranked(q.criteria.order, rows) && UniqueBy(LeafKey, rows)
    && forall r :: r in rows <==> r in db.groups && Selects(q.criteria, r) && Linked(db.accountGroups, id, r.id)
  }

  lemma RowsBehind(db: Snapshot, q: LeafQ, ids: seq<int>, id: int) returns (rows: seq<LeafRow>)
    requires ValidSnapshot(db) && Unwindowed(q.criteria) && id in ids
    ensures Behind(db, q, ids, id, rows)
  {
    var raw := SelectRows(Lift(q.criteria, ids), JoinTable(db.accountGroups, db.groups));
    var stream := GroupStream(db, q, ids);
    var groups := GroupsFor(stream, id);
    var at := GroupsForExactly(stream, id);
    rows := seq(|at|, i requires 0 <= i < |at| => raw[at[i]].group);
    LeafColumnsKeep(q);
    forall i | 0 <= i < |rows| ensures groups[i] == ProjectLeaf(LeafColumns(q), rows[i]) && groups[i].id == rows[i].id {
      assert stream[at[i]].group == groups[i];
    }
    RankedRows(db, q, ids, at, rows);
    forall i, j | 0 <= i < j < |rows| ensures LeafKey(rows[i]) != LeafKey(rows[j]) {
      assert GroupID(groups[i]) != GroupID(groups[j]);
    }
    forall r ensures r in rows <==> r in db.groups && Selects(q.criteria, r) && Linked(db.accountGroups, id, r.id) {
      MemberBehind(db, q, ids, id, at, rows, r);
    }
  }

  lemma RankedRows(db: Snapshot, q: LeafQ, ids: seq<int>, at: seq<nat>, rows: seq<LeafRow>)
    requires Unwindowed(q.criteria) && |at| == |rows|
    requires forall i, j | 0 <= i < j < |at| :: at[i] < at[j]
    requires
      var raw := SelectRows(Lift(q.criteria, ids), JoinTable(db.accountGroups, db.groups));
      forall i | 0 <= i < |at| :: at[i] < |raw| && raw[at[i]].group == rows[i]
    ensures Ranked(q.criteria.order, rows)
  {
    var c, table := Lift(q.criteria, ids), JoinTable(db.accountGroups, db.groups);
    var raw := SelectRows(c, table);
    SortRanked(c.order, Keep(j => Selects(c, j), table));
    forall i, j | 0 <= i < j < |rows| ensures q.criteria.order(rows[i]) <= q.criteria.order(rows[j]) {
      assert c.order(raw[at[i]]) <= c.order(raw[at[j]]);
    }
  }

  lemma MemberBehind(db: Snapshot, q: LeafQ, ids: seq<int>, id: int, at: seq<nat>, rows: seq<LeafRow>, r: LeafRow)
    requires ValidSnapshot(db) && Unwindowed(q.criteria) && id in ids && |at| == |rows|
    requires
      var raw := SelectRows(Lift(q.criteria, ids), JoinTable(db.accountGroups, db.groups));
      forall i | 0 <= i < |at| :: at[i] < |raw| && raw[at[i]].group == rows[i]
    requires
      var groups := GroupsFor(GroupStream(db, q, ids), id);
      |groups| == |rows| && forall i | 0 <= i < |rows| :: groups[i].id == rows[i].id
    ensures r in rows <==> r in db.groups && Selects(q.criteria, r) && Linked(db.accountGroups, id, r.id)
  {
    var stream := GroupStream(db, q, ids);
    var groups := GroupsFor(stream, id);
    var more := GroupsForExactly(stream, id);
    if r in rows {
      var i :| 0 <= i < |rows| && rows[i] == r;
      RawGroup(db, q, ids, at[i]);
      assert Mentions(groups, r.id);
      var m :| 0 <= m < |stream| && stream[m].accountID == id && stream[m].group.id == r.id;
      var other := StreamedGroup(db, q, ids, m);
    }
    if r in db.groups && Selects(q.criteria, r) && Linked(db.accountGroups, id, r.id) {
      GroupIsStreamed(db, q, ids, id, r);
      LeafColumnsKeep(q);
      assert Joined(stream, id, r.id);
      var i :| 0 <= i < |groups| && groups[i].id == r.id;
      RawGroup(db, q, ids, at[i]);
      SameKey(LeafKey, db.groups, rows[i], r);
    }
  }

  lemma RawGroup(db: Snapshot, q: LeafQ, ids: seq<int>, i: nat)
    requires i < |SelectRows(Lift(q.criteria, ids), JoinTable(db.accountGroups, db.groups))|
    ensures
      var r := SelectRows(Lift(q.criteria, ids), JoinTable(db.accountGroups, db.groups))[i].group;
      r in db.groups && Selects(q.criteria, r)
  {
    var c, table := Lift(q.criteria, ids), JoinTable(db.accountGroups, db.groups);
    var j := SelectRows(c, table)[i];
    SelectMember(c, table, j);
    LiftSelects(q.criteria, ids, j);
    JoinTableMember(db.accountGroups, db.groups, j);
  }

  // ----- the batch and the account alone -----

  lemma LoneMembers(db: Snapshot, q: LeafQ, id: int)
    requires Unwindowed(q.criteria)
    ensures
      var rows := SelectRows(Narrow(q.criteria, LinkedTo(db.accountGroups, id)), db.groups);
      forall r :: r in rows <==> r in db.groups && Selects(q.criteria, r) && Linked(db.accountGroups, id, r.id)
  {
    var lone := Narrow(q.criteria, LinkedTo(db.accountGroups, id));
    forall r
      ensures r in SelectRows(lone, db.groups) <==>
              r in db.groups && Selects(q.criteria, r) && Linked(db.accountGroups, id, r.id)
    {
      SelectComplete(lone, db.groups, r);
      NarrowSelects(q.criteria, LinkedTo(db.accountGroups, id), r);
    }
  }

  /** Many-to-many: an account gets exactly the selected groups that the join table links to it. */
  lemma GroupBatchIsAlone(db: Snapshot, q: LeafQ, ids: seq<int>, id: int)
    requires ValidSnapshot(db) && Unwindowed(q.criteria) && id in ids
    ensures (set g | g in GroupsFor(GroupStream(db, q, ids), id)) == GroupsAlone(db, q, id)
    ensures (set g | g in LoneGroups(db, q, id)) == GroupsAlone(db, q, id)
  {
    var project := r => ProjectLeaf(LeafColumns(q), r);
    var rows := RowsBehind(db, q, ids, id);
    var lone := SelectRows(Narrow(q.criteria, LinkedTo(db.accountGroups, id)), db.groups);
    LoneMembers(db, q, id);
    Image(project, rows);
    Image(project, lone);
    assert LoneGroups(db, q, id) == Map(project, lone);
  }

  lemma Image<A, B>(f: A -> B, items: seq<A>)
    ensures (set y | y in Map(f, items)) == set x | x in items :: f(x)
  {
    forall y | y in Map(f, items) ensures exists x :: x in items && f(x) == y {
      var i :| 0 <= i < |items| && Map(f, items)[i] == y;
      assert items[i] in items;
    }
    forall x | x in items ensures f(x) in Map(f, items) {
      var i :| 0 <= i < |items| && items[i] == x;
      assert Map(f, items)[i] == f(x);
    }
  }

  /** If the query ranks its groups apart, an account also gets them in the order of the query. */
  lemma GroupsInOrder(db: Snapshot, q: LeafQ, ids: seq<int>, id: int)
    requires ValidSnapshot(db) && Unwindowed(q.criteria) && id in ids && RanksApart(db.groups, q.criteria)
    ensures GroupsFor(GroupStream(db, q, ids), id) == LoneGroups(db, q, id)
  {
    var rows := RowsBehind(db, q, ids, id);
    var c := Narrow(q.criteria, LinkedTo(db.accountGroups, id));
    var lone := SelectRows(c, db.groups);
    LoneMembers(db, q, id);
    SelectUnique(LeafKey, c, db.groups);
    SortRanked(c.order, Keep(r => Selects(c, r), db.groups));
    RankedSame(LeafKey, q.criteria.order, rows, lone);
  }
}
