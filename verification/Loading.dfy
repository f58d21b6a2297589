/** The query builders as objects. Running one prepares it, scans its rows into fresh nodes, and then
    loads every requested edge: one query for the whole batch, narrowed in place to the keys at hand,
    whose results are handed to the nodes they belong to. */
module Loading {
  import opened Wrappers
  import opened Relational
  import opened Schema
  import opened Cells
  import opened Joins
  import opened Index
  import opened Queries
  import opened Entities
  import opened Assign
  import opened Streaming
  import opened Attach
  import opened Preparing
  import opened Stages

  /** What the database guarantees about a snapshot: unique primary keys and typed values. */
  ghost predicate Stored(db: Snapshot) {
    && ValidSnapshot(db) && TypedSnapshot(db)
    && (forall r | r in db.groups :: WellFormedLeaf(r))
    && (forall r | r in db.proxies :: WellFormedLeaf(r))
  }

  /** A query on groups or proxies. */
  class LeafQuery {
    const columns: seq<string>
    var fields: seq<string>
    var criteria: Criteria<LeafRow>

    constructor (q: LeafQ)
      ensures Value() == q
    {
      columns, fields, criteria := q.columns, q.fields, q.criteria;
    }

    function Value(): LeafQ
      reads this
    {
      LeafQ(columns, fields, criteria)
    }

    static method CloneOf(query: LeafQuery?) returns (clone: LeafQuery?)
      ensures LeafValueOf(clone) == LeafValueOf(query)
      ensures clone != null ==> fresh(clone)
    {
      if query == null { return null; }
      clone := new LeafQuery(query.Value());
    }

    method Where(p: LeafRow -> bool)
      modifies this
      ensures Value() == WhereLeaf(old(Value()), p)
    {
      criteria := Narrow(criteria, p);
    }

    method PrepareQuery() returns (err: Option<Error>)
      modifies this
      ensures err == PrepareLeaf(old(Value()))
      ensures err.None? ==> Value() == old(Value()).(criteria := Prepared(old(criteria)))
    {
      err, criteria := Traverse(criteria);
      if err.None? { err := Validate(fields, ["id"] + columns); }
    }

    method QuerySpec() returns (cols: seq<string>)
      ensures cols == LeafColumns(Value())
    {
      if |fields| > 0 { cols := SelectColumns("id", fields); } else { cols := ["id"] + columns; }
    }

    /** Scans the selected rows into fresh nodes, in order. */
    method SqlAll(table: seq<LeafRow>) returns (nodes: seq<Leaf>)
      requires forall row | row in table :: WellFormedLeaf(row)
      ensures LeavesAre(nodes, Leaves(table, Value().(criteria := Plain(criteria))))
    {
      var cols := QuerySpec();
      var c := Plain(criteria);
      var rows := SelectRows(c, table);
      nodes := [];
      for i := 0 to |rows|
        invariant |nodes| == i && forall j | 0 <= j < i :: nodes[j].row == ProjectLeaf(cols, rows[j])
      {
        assert rows[i] in rows;
        SelectMember(c, table, rows[i]);
        LeafOfProjects(cols, rows[i]);
        var node := new Leaf(LeafOf(cols, LeafValues(cols, rows[i])));
        nodes := nodes + [node];
      }
    }

    method All(table: seq<LeafRow>) returns (r: Result<seq<Leaf>, Error>)
      requires forall row | row in table :: WellFormedLeaf(row)
      modifies this
      ensures r.Failure? <==> PrepareLeaf(old(Value())).Some?
      ensures r.Failure? ==> Some(r.error) == PrepareLeaf(old(Value()))
      ensures r.Success? ==> LeavesAre(r.value, Leaves(table, old(Value())))
    {
      var err := PrepareQuery();
      if err.Some? { return Failure(err.value); }
      PreparedSelects(old(criteria), table);
      var nodes := SqlAll(table);
      return Success(nodes);
    }

    /** The rows of the query joined with the join table: the account id, then the group's columns. */
    method JoinedRows(db: Snapshot, edgeIDs: seq<int>) returns (cols: seq<string>, raw: seq<seq<Value>>)
      requires Stored(db)
      ensures
        var stream := GroupStream(db, Value().(criteria := Plain(criteria)), edgeIDs);
        |raw| == |stream| && forall i | 0 <= i < |raw| ::
          Encodes(cols, raw[i], stream[i]) && stream[i].accountID in edgeIDs
    {
      cols := QuerySpec();
      var c := Lift(Plain(criteria), edgeIDs);
      var table := JoinTable(db.accountGroups, db.groups);
      var rows := SelectRows(c, table);
      ghost var stream := GroupStream(db, Value().(criteria := Plain(criteria)), edgeIDs);
      raw := seq(|rows|, i requires 0 <= i < |rows| => [Int(rows[i].accountID)] + LeafValues(cols, rows[i].group));
      forall i | 0 <= i < |raw| ensures Encodes(cols, raw[i], stream[i]) && stream[i].accountID in edgeIDs {
        assert rows[i] in rows;
        SelectMember(c, table, rows[i]);
        LiftSelects(Plain(criteria), edgeIDs, rows[i]);
        JoinTableMember(db.accountGroups, db.groups, rows[i]);
        LeafOfProjects(cols, rows[i].group);
        assert raw[i][1..] == LeafValues(cols, rows[i].group);
      }
    }

    /** Runs the query narrowed to a list of ids. */
    method AllByID(table: seq<LeafRow>, ids: seq<int>) returns (r: Result<seq<Leaf>, Error>)
      requires forall row | row in table :: WellFormedLeaf(row)
      modifies this
      ensures r.Failure? <==> PrepareLeaf(old(Value())).Some?
      ensures r.Failure? ==> Some(r.error) == PrepareLeaf(old(Value()))
      ensures r.Success? ==>
        var rows := Leaves(table, WhereLeaf(old(Value()), LeafIDIn(ids)));
        LeavesAre(r.value, rows) && forall i | 0 <= i < |rows| :: rows[i].id in ids
    {
      Where(LeafIDIn(ids));
      r := All(table);
      SelectedLeaves(table, old(Value()), ids);
    }
  }

  /** The trees of a batch keep the scanned rows. */
  ghost predicate TreesOver(t: seq<AccountTree>, batch: seq<AccountRow>) {
    |t| == |batch| && forall i | 0 <= i < |batch| :: t[i].row == batch[i]
  }

  lemma UniqueRows(nodes: seq<Account>, batch: seq<AccountRow>)
    requires |nodes| == |batch| && forall i | 0 <= i < |nodes| :: nodes[i].Row() == batch[i]
    requires UniqueBy(AccountKey, batch)
    ensures UniqueIDs(nodes) && AccountIDs(nodes) == IDs(batch)
  {
    forall i, j | 0 <= i < j < |nodes| ensures nodes[i].id != nodes[j].id {
      assert AccountKey(batch[i]) != AccountKey(batch[j]);
    }
  }

  lemma UniqueScan(db: Snapshot, q: AccountQ)
    requires ValidSnapshot(db)
    ensures UniqueBy(AccountKey, ScannedAccounts(db, q))
  {
    var rows, scanned := SelectRows(q.criteria, db.accounts), ScannedAccounts(db, q);
    SelectUnique(AccountKey, q.criteria, db.accounts);
    AccountColumnsKeep(q);
    forall i, j | 0 <= i < j < |scanned| ensures AccountKey(scanned[i]) != AccountKey(scanned[j]) {
      assert AccountKey(rows[i]) != AccountKey(rows[j]);
    }
  }

  /** Finished nodes join the world that their edges lead into. */
  ghost function Complete(nodes: seq<Account>, trees: seq<AccountTree>, w: World): (u: World)
    requires |nodes| == |trees| && Distinct(nodes)
    ensures u.accounts.Keys == w.accounts.Keys + (set x | x in nodes) && u.joins == w.joins
    ensures forall i | 0 <= i < |nodes| :: u.accounts[nodes[i]] == trees[i]
    ensures forall a | a in w.accounts && a !in nodes :: u.accounts[a] == w.accounts[a]
  {
    World(w.accounts + map i | 0 <= i < |nodes| :: nodes[i] := trees[i], w.joins)
  }

  lemma CompleteIsClosed(nodes: seq<Account>, trees: seq<AccountTree>, w: World)
    requires NodesOK(nodes, trees, w) && Closed(w)
    ensures LoadedAccounts(nodes, trees, Complete(nodes, trees, w))
  {
    var u := Complete(nodes, trees, w);
    NodesAgree(nodes, trees, w);
    CompleteAccounts(nodes, trees, w, u);
    forall j | j in u.joins ensures JoinOK(j, u.joins[j], u) {
      JoinFieldsOKGrows(j.Contents(), w.joins[j], w, u);
    }
  }

  lemma CompleteAccounts(nodes: seq<Account>, trees: seq<AccountTree>, w: World, u: World)
    requires |nodes| == |trees| && Closed(w) && Within(w, u)
    requires u.accounts.Keys == w.accounts.Keys + set x | x in nodes
    requires forall i | 0 <= i < |nodes| ::
      FieldsOK(nodes[i].Contents(), trees[i], w) && u.accounts[nodes[i]] == trees[i]
    ensures forall a | a in u.accounts :: AccountOK(a, u.accounts[a], u)
  {
    forall a | a in u.accounts ensures AccountOK(a, u.accounts[a], u) {
      if a in w.accounts {
        FieldsOKGrows(a.Contents(), w.accounts[a], w, u);
      } else {
        var i :| 0 <= i < |nodes| && nodes[i] == a;
        FieldsOKGrows(a.Contents(), trees[i], w, u);
      }
    }
  }

  ghost function CompleteJoins(nodes: seq<AccountGroup>, trees: seq<JoinTree>, w: World): (u: World)
    requires |nodes| == |trees| && Distinct(nodes)
    ensures u.joins.Keys == w.joins.Keys + (set x | x in nodes) && u.accounts == w.accounts
    ensures forall i | 0 <= i < |nodes| :: u.joins[nodes[i]] == trees[i]
    ensures forall j | j in w.joins && j !in nodes :: u.joins[j] == w.joins[j]
  {
    World(w.accounts, w.joins + map i | 0 <= i < |nodes| :: nodes[i] := trees[i])
  }

  lemma CompleteJoinsIsClosed(nodes: seq<AccountGroup>, trees: seq<JoinTree>, w: World)
    requires JoinNodesOK(nodes, trees, w) && Closed(w)
    ensures LoadedJoins(nodes, trees, CompleteJoins(nodes, trees, w))
  {
    var u := CompleteJoins(nodes, trees, w);
    JoinNodesAgree(nodes, trees, w);
    forall a | a in u.accounts ensures AccountOK(a, u.accounts[a], u) {
      FieldsOKGrows(a.Contents(), w.accounts[a], w, u);
    }
    CompleteJoinRows(nodes, trees, w, u);
  }

  lemma CompleteJoinRows(nodes: seq<AccountGroup>, trees: seq<JoinTree>, w: World, u: World)
    requires |nodes| == |trees| && Closed(w) && Within(w, u)
    requires u.joins.Keys == w.joins.Keys + set x | x in nodes
    requires forall i | 0 <= i < |nodes| ::
      JoinFieldsOK(nodes[i].Contents(), trees[i], w) && u.joins[nodes[i]] == trees[i]
    ensures forall j | j in u.joins :: JoinOK(j, u.joins[j], u)
  {
    forall j | j in u.joins ensures JoinOK(j, u.joins[j], u) {
      if j in w.joins {
        JoinFieldsOKGrows(j.Contents(), w.joins[j], w, u);
      } else {
        var i :| 0 <= i < |nodes| && nodes[i] == j;
        JoinFieldsOKGrows(j.Contents(), trees[i], w, u);
      }
    }
  }

  ghost predicate JoinTreesOver(t: seq<JoinTree>, batch: seq<JoinTableRow>) {
    |t| == |batch| && forall i | 0 <= i < |batch| :: t[i].row == batch[i]
  }

  /** A batch whose keys are never nil asks for at least one of them. */
  lemma SomeKey(keys: seq<Option<int>>)
    requires keys != [] && keys[0].Some?
    ensures FirstSeen(keys) != []
  {
    assert keys[0] in keys;
    assert keys[0].value in FirstSeen(keys);
  }

  lemma PreparedJoins(db: Snapshot, q: JoinQ)
    requires PrepareError(q.criteria.inters) == None
    ensures JoinNodes(db, q.(criteria := Plain(Prepared(q.criteria)))) == JoinNodes(db, q)
    ensures ScannedJoins(db, q.(criteria := Plain(Prepared(q.criteria)))) == ScannedJoins(db, q)
    ensures forall batch ::
      JoinEdgesError(db, q.(criteria := Plain(Prepared(q.criteria))), batch) == JoinEdgesError(db, q, batch)
  {
    PreparedSelects(q.criteria, db.accountGroups);
    var p := q.(criteria := Plain(Prepared(q.criteria)));
    var rows := ScannedJoins(db, q);
    forall batch, row ensures JoinNode(db, p, batch, row) == JoinNode(db, q, batch, row) {}
    assert forall i | 0 <= i < |rows| :: JoinNodes(db, p)[i] == JoinNodes(db, q)[i];
  }

  lemma NoKeys(keys: seq<Option<int>>)
    requires FirstSeen(keys) == []
    ensures forall i | 0 <= i < |keys| :: keys[i].None?
  {
    forall i | 0 <= i < |keys| ensures keys[i].None? {
      assert keys[i] in keys;
    }
  }

  /** What running a query on accounts brings back. */
  ghost predicate LoadedAccounts(nodes: seq<Account>, trees: seq<AccountTree>, w: World)
    reads w.accounts.Keys, w.joins.Keys
  {
    Closed(w) && Distinct(nodes) && AccountsAre(nodes, trees, w)
  }

  ghost predicate LoadedJoins(nodes: seq<AccountGroup>, trees: seq<JoinTree>, w: World)
    reads w.accounts.Keys, w.joins.Keys
  {
    Closed(w) && Distinct(nodes) && JoinsAre(nodes, trees, w)
  }

  /** Builders and loaded objects do not overlap. */
  ghost predicate OutsideOf(builders: set<object>, nodes: seq<Account>, w: World) {
    && (forall x | x in nodes :: x !in builders)
    && (forall a | a in w.accounts :: a !in builders)
    && (forall j | j in w.joins :: j !in builders)
  }

  lemma NoParents(db: Snapshot, q: AccountQ, batch: seq<AccountRow>, t: seq<AccountTree>)
    requires FirstSeen(ParentKeys(batch)) == [] && |t| == |batch|
    requires forall i | 0 <= i < |t| :: t[i].parent == None
    ensures StageParent(db, Some(q), batch, t) == t
  {
    NoKeys(ParentKeys(batch));
  }

  /** What preparing changes in a query does not change what it denotes. */
  lemma PreparedAccounts(db: Snapshot, q: AccountQ)
    requires PrepareError(q.criteria.inters) == None
    ensures Accounts(db, q.(criteria := Plain(Prepared(q.criteria)))) == Accounts(db, q)
    ensures ScannedAccounts(db, q.(criteria := Plain(Prepared(q.criteria)))) == ScannedAccounts(db, q)
    ensures forall batch ::
      EdgesError(db, q.(criteria := Plain(Prepared(q.criteria))), batch) == EdgesError(db, q, batch)
  {
    PreparedSelects(q.criteria, db.accounts);
    var p := q.(criteria := Plain(Prepared(q.criteria)));
    var rows := ScannedAccounts(db, q);
    forall batch, row ensures AccountNode(db, p, batch, row) == AccountNode(db, q, batch, row) {}
    assert forall i | 0 <= i < |rows| :: Accounts(db, p)[i] == Accounts(db, q)[i];
  }

  lemma NoProxies(db: Snapshot, q: LeafQ, batch: seq<AccountRow>, t: seq<AccountTree>)
    requires FirstSeen(ProxyKeys(batch)) == [] && |t| == |batch|
    requires forall i | 0 <= i < |t| :: t[i].proxy == None
    ensures StageProxy(db, Some(q), batch, t) == t
  {
    NoKeys(ProxyKeys(batch));
  }

  function LeafValueOf(q: LeafQuery?): Option<LeafQ>
    reads q
  {
    if q == null then None else Some(q.Value())
  }

  /** A query on accounts, with the edge queries it owns. */
  class AccountQuery {
    var fields: seq<AccountColumn>
    var criteria: Criteria<AccountRow>
    var withGroups: LeafQuery?
    var withProxy: LeafQuery?
    var withParent: AccountQuery?
    var withChildren: AccountQuery?
    var withAccountGroups: AccountGroupQuery?

    ghost var Repr: set<object>

    /** The edge queries form a tree of builders that share nothing. */
    ghost predicate Valid()
      reads this, Repr
      ensures Valid() ==> this in Repr
      decreases Repr
    {
      && this in Repr
      && (withGroups != null ==> withGroups in Repr)
      && (withProxy != null ==> withProxy in Repr && withProxy != withGroups)
      && (withParent != null ==>
            && withParent in Repr && withParent.Repr <= Repr && this !in withParent.Repr
            && withGroups !in withParent.Repr && withProxy !in withParent.Repr
            && withParent.Valid())
      && (withChildren != null ==>
            && withChildren in Repr && withChildren.Repr <= Repr && this !in withChildren.Repr
            && withGroups !in withChildren.Repr && withProxy !in withChildren.Repr
            && (withParent != null ==> withParent.Repr !! withChildren.Repr)
            && withChildren.Valid())
      && (withAccountGroups != null ==>
            && withAccountGroups in Repr && withAccountGroups.Repr <= Repr && this !in withAccountGroups.Repr
            && withGroups !in withAccountGroups.Repr && withProxy !in withAccountGroups.Repr
            && (withParent != null ==> withParent.Repr !! withAccountGroups.Repr)
            && (withChildren != null ==> withChildren.Repr !! withAccountGroups.Repr)
            && withAccountGroups.Valid())
    }

    ghost function Value(): AccountQ
      requires Valid()
      reads this, Repr
      decreases Repr
    {
      AccountQ(
        fields, criteria, LeafValueOf(withGroups), LeafValueOf(withProxy),
        if withParent == null then None else Some(withParent.Value()),
        if withChildren == null then None else Some(withChildren.Value()),
        if withAccountGroups == null then None else Some(withAccountGroups.Value()))
    }

    /** A builder that owns the given edge queries. */
    constructor (fields: seq<AccountColumn>, criteria: Criteria<AccountRow>, groups: LeafQuery?, proxy: LeafQuery?,
                 parent: AccountQuery?, children: AccountQuery?, accountGroups: AccountGroupQuery?,
                 ghost parts: set<object>)
      ensures this.fields == fields && this.criteria == criteria && withGroups == groups && withProxy == proxy
      ensures withParent == parent && withChildren == children && withAccountGroups == accountGroups
      ensures Repr == {this} + parts
    {
      this.fields, this.criteria := fields, criteria;
      withGroups, withProxy := groups, proxy;
      withParent, withChildren, withAccountGroups := parent, children, accountGroups;
      Repr := {this} + parts;
    }

    /** The edge queries that may have edges of their own stand for those of a query. */
    ghost predicate Denoted(q: AccountQ)
      reads this, ReprOf(withParent), ReprOf(withChildren), JoinReprOf(withAccountGroups), withParent, withChildren,
            withAccountGroups
    {
      Denotes(withParent, q.withParent) && Denotes(withChildren, q.withChildren) &&
      JoinDenotes(withAccountGroups, q.withAccountGroups)
    }

    /** Builders that share nothing make a well-formed builder together. */
    lemma Assembled(q: AccountQ, parts: set<object>)
      requires q.fields == fields && q.criteria == criteria && Denoted(q)
      requires LeafValueOf(withGroups) == q.withGroups && LeafValueOf(withProxy) == q.withProxy
      requires withProxy != null ==> withProxy != withGroups
      requires Separate(LeafSet(withGroups) + LeafSet(withProxy), ReprOf(withParent), ReprOf(withChildren),
                        JoinReprOf(withAccountGroups))
      requires parts == LeafSet(withGroups) + LeafSet(withProxy) + ReprOf(withParent) + ReprOf(withChildren) +
                        JoinReprOf(withAccountGroups)
      requires Repr == {this} + parts && this !in parts
      ensures Valid() && Value() == q
    {
    }

    /** A builder that shares nothing with this one and stands for the same query. */
    method Clone() returns (clone: AccountQuery)
      requires Valid()
      ensures clone.Valid() && fresh(clone.Repr) && clone.Value() == Value()
      decreases Repr, 4
    {
      ghost var q := Value();
      Parts(q);
      clone := CloneLeaves(fields, criteria, withGroups, withProxy, withParent, withChildren, withAccountGroups, q,
                           Repr);
    }

    lemma Parts(q: AccountQ)
      requires Valid() && q == Value()
      ensures Denotes(withParent, q.withParent) && ReprOf(withParent) < Repr
      ensures Denotes(withChildren, q.withChildren) && ReprOf(withChildren) < Repr
      ensures JoinDenotes(withAccountGroups, q.withAccountGroups) && JoinReprOf(withAccountGroups) < Repr
    {
    }

    static method CloneLeaves(fields: seq<AccountColumn>, criteria: Criteria<AccountRow>, groups: LeafQuery?,
                              proxy: LeafQuery?,
                              parent: AccountQuery?, children: AccountQuery?, accountGroups: AccountGroupQuery?,
                              ghost q: AccountQ, ghost scope: set<object>)
      returns (clone: AccountQuery)
      requires q.fields == fields && q.criteria == criteria
      requires LeafValueOf(groups) == q.withGroups && LeafValueOf(proxy) == q.withProxy
      requires Denotes(parent, q.withParent) && Denotes(children, q.withChildren)
      requires JoinDenotes(accountGroups, q.withAccountGroups)
      requires ReprOf(parent) < scope && ReprOf(children) < scope && JoinReprOf(accountGroups) < scope
      ensures clone.Valid() && fresh(clone.Repr) && clone.Value() == q
      decreases scope, 3
    {
      var g := LeafQuery.CloneOf(groups);
      var p := LeafQuery.CloneOf(proxy);
      clone := CloneTrees(fields, criteria, g, p, parent, children, accountGroups, q, LeafSet(g) + LeafSet(p), scope);
    }

    /** Clones the edge queries that may have edges of their own, one after the other; `parts` is what
        the clone already owns. */
    static method CloneTrees(fields: seq<AccountColumn>, criteria: Criteria<AccountRow>, groups: LeafQuery?,
                             proxy: LeafQuery?,
                             parent: AccountQuery?, children: AccountQuery?, accountGroups: AccountGroupQuery?,
                             ghost q: AccountQ, ghost parts: set<object>, ghost scope: set<object>)
      returns (clone: AccountQuery)
      requires q.fields == fields && q.criteria == criteria
      requires LeafValueOf(groups) == q.withGroups && LeafValueOf(proxy) == q.withProxy
      requires proxy != null ==> proxy != groups
      requires Denotes(parent, q.withParent) && Denotes(children, q.withChildren)
      requires JoinDenotes(accountGroups, q.withAccountGroups)
      requires ReprOf(parent) < scope && ReprOf(children) < scope && JoinReprOf(accountGroups) < scope
      requires parts == LeafSet(groups) + LeafSet(proxy)
      ensures clone.Valid() && fresh(clone.Repr - parts) && clone.Value() == q
      decreases scope, 2
    {
      var up := CloneOf(parent, q.withParent);
      clone := CloneFamily(fields, criteria, groups, proxy, up, children, accountGroups, q, parts + ReprOf(up), scope);
    }

    static method CloneFamily(fields: seq<AccountColumn>, criteria: Criteria<AccountRow>, groups: LeafQuery?,
                              proxy: LeafQuery?,
                              up: AccountQuery?, children: AccountQuery?, accountGroups: AccountGroupQuery?,
                              ghost q: AccountQ, ghost parts: set<object>, ghost scope: set<object>)
      returns (clone: AccountQuery)
      requires q.fields == fields && q.criteria == criteria
      requires LeafValueOf(groups) == q.withGroups && LeafValueOf(proxy) == q.withProxy
      requires proxy != null ==> proxy != groups
      requires Denotes(up, q.withParent) && Denotes(children, q.withChildren)
      requires JoinDenotes(accountGroups, q.withAccountGroups)
      requires ReprOf(children) < scope && JoinReprOf(accountGroups) < scope
      requires parts == LeafSet(groups) + LeafSet(proxy) + ReprOf(up) && LeafSet(groups) + LeafSet(proxy) !! ReprOf(up)
      ensures clone.Valid() && fresh(clone.Repr - parts) && clone.Value() == q
      decreases scope, 1
    {
      var down := CloneBeside(children, q.withChildren, up, q.withParent);
      clone := CloneJoins(fields, criteria, groups, proxy, up, down, accountGroups, q, parts + ReprOf(down), scope);
    }

    static method CloneBeside(query: AccountQuery?, ghost value: Option<AccountQ>, ghost other: AccountQuery?,
                              ghost otherValue: Option<AccountQ>)
      returns (clone: AccountQuery?)
      requires Denotes(query, value) && Denotes(other, otherValue)
      ensures Denotes(clone, value) && fresh(ReprOf(clone)) && ReprOf(clone) !! ReprOf(other)
      ensures Denotes(other, otherValue)
      decreases ReprOf(query), 6
    {
      clone := CloneOf(query, value);
    }

    static method CloneJoins(fields: seq<AccountColumn>, criteria: Criteria<AccountRow>, groups: LeafQuery?,
                             proxy: LeafQuery?,
                             up: AccountQuery?, down: AccountQuery?, accountGroups: AccountGroupQuery?,
                             ghost q: AccountQ, ghost parts: set<object>, ghost scope: set<object>)
      returns (clone: AccountQuery)
      requires q.fields == fields && q.criteria == criteria
      requires LeafValueOf(groups) == q.withGroups && LeafValueOf(proxy) == q.withProxy
      requires proxy != null ==> proxy != groups
      requires Denotes(up, q.withParent) && Denotes(down, q.withChildren)
      requires JoinDenotes(accountGroups, q.withAccountGroups)
      requires JoinReprOf(accountGroups) < scope
      requires parts == LeafSet(groups) + LeafSet(proxy) + ReprOf(up) + ReprOf(down)
      requires Separate(LeafSet(groups) + LeafSet(proxy), ReprOf(up), ReprOf(down), {})
      ensures clone.Valid() && fresh(clone.Repr - parts) && clone.Value() == q
      decreases scope, 0
    {
      var joins := AccountGroupQuery.CloneBeside(accountGroups, q.withAccountGroups, up, q.withParent, down,
                                                 q.withChildren);
      clone := Assemble(fields, criteria, groups, proxy, up, down, joins, q, parts + JoinReprOf(joins));
    }

    static method Assemble(fields: seq<AccountColumn>, criteria: Criteria<AccountRow>, groups: LeafQuery?,
                           proxy: LeafQuery?,
                           parent: AccountQuery?, children: AccountQuery?, accountGroups: AccountGroupQuery?,
                           ghost q: AccountQ,
                           ghost parts: set<object>)
      returns (clone: AccountQuery)
      requires q.fields == fields && q.criteria == criteria
      requires LeafValueOf(groups) == q.withGroups && LeafValueOf(proxy) == q.withProxy
      requires proxy != null ==> proxy != groups
      requires Denotes(parent, q.withParent) && Denotes(children, q.withChildren)
      requires JoinDenotes(accountGroups, q.withAccountGroups)
      requires Separate(LeafSet(groups) + LeafSet(proxy), ReprOf(parent), ReprOf(children), JoinReprOf(accountGroups))
      requires parts == LeafSet(groups) + LeafSet(proxy) + ReprOf(parent) + ReprOf(children) + JoinReprOf(accountGroups)
      ensures clone.Valid() && clone.Value() == q && fresh(clone) && clone.Repr == {clone} + parts
    {
      clone := Allocate(fields, criteria, groups, proxy, parent, children, accountGroups, q, parts);
      clone.Assembled(q, parts);
    }

    static method Allocate(fields: seq<AccountColumn>, criteria: Criteria<AccountRow>, groups: LeafQuery?,
                           proxy: LeafQuery?,
                           parent: AccountQuery?, children: AccountQuery?, accountGroups: AccountGroupQuery?,
                           ghost q: AccountQ,
                           ghost parts: set<object>)
      returns (clone: AccountQuery)
      requires Denotes(parent, q.withParent) && Denotes(children, q.withChildren)
      requires JoinDenotes(accountGroups, q.withAccountGroups)
      ensures fresh(clone) && clone.fields == fields && clone.criteria == criteria
      ensures clone.withGroups == groups && clone.withProxy == proxy
      ensures clone.withParent == parent && clone.withChildren == children && clone.withAccountGroups == accountGroups
      ensures clone.Denoted(q) && clone.Repr == {clone} + parts && clone !in parts
    {
      clone := new AccountQuery(fields, criteria, groups, proxy, parent, children, accountGroups, parts);
    }

    static method CloneOf(query: AccountQuery?, ghost value: Option<AccountQ>) returns (clone: AccountQuery?)
      requires Denotes(query, value)
      ensures Denotes(clone, value) && fresh(ReprOf(clone))
      decreases ReprOf(query), 5
    {
      if query == null { return null; }
      clone := query.Clone();
    }

    method SetCriteria(c: Criteria<AccountRow>)
      requires Valid()
      modifies this`criteria
      ensures Valid() && criteria == c && Value() == old(Value()).(criteria := c)
    {
      criteria := c;
    }

    method Where(p: AccountRow -> bool)
      requires Valid()
      modifies this`criteria
      ensures Valid() && Value() == Queries.Where(old(Value()), p)
    {
      SetCriteria(Narrow(criteria, p));
    }

    /** Makes sure that a query which selects columns selects its foreign key too. */
    method SelectKey()
      requires Valid()
      modifies this`fields
      ensures Valid() && Value() == KeyedChild(old(Value()))
    {
      if |fields| > 0 { fields := AddColumnOnce(fields, ParentAccountID); }
    }

    method PrepareQuery() returns (err: Option<Error>)
      requires Valid()
      modifies this`criteria
      ensures Valid() && err == Prepare(old(criteria).inters, fields, ACCOUNT_COLUMNS)
      ensures Value() == old(Value()).(criteria := criteria)
      ensures err.None? ==> PrepareError(old(criteria).inters).None? && criteria == Prepared(old(criteria))
    {
      var e, prepared := Traverse(criteria);
      SetCriteria(prepared);
      if e.Some? { err := e; } else { err := Validate(fields, ACCOUNT_COLUMNS); }
    }

    method QuerySpec() returns (cols: seq<AccountColumn>)
      ensures cols == AccountColumns(fields, withProxy != null, withParent != null)
    {
      if |fields| == 0 { return ACCOUNT_COLUMNS; }
      cols := SelectColumns(ID, fields);
      if withProxy != null { cols := AddColumnOnce(cols, ProxyID); }
      if withParent != null { cols := AddColumnOnce(cols, ParentAccountID); }
    }

    /** Scans one row into a fresh node. */
    static method ScanNode(cols: seq<AccountColumn>, row: AccountRow, loaded: Loaded)
      returns (node: Account, err: Option<Error>)
      requires WellTyped(row)
      ensures fresh(node) && err == None
      ensures node.Contents() == Fields(ProjectAccount(cols, row), loaded, [], null, null, [], [])
    {
      var values := Account.ScanValues(cols);
      for i := 0 to |cols|
        invariant forall j | 0 <= j < i :: values[j] == Fill(NewCell(AccountKind(cols[j])), AccountValue(row, cols[j]))
        invariant forall j | i <= j < |cols| :: values[j] == NewCell(AccountKind(cols[j]))
      {
        values[i] := Fill(values[i], AccountValue(row, cols[i]));
      }
      node := new Account(loaded);
      assert ScannedFrom(cols, row, values[..]);
      AssignAccountProjects(cols, row, values[..], node.Scan());
      err := node.AssignValues(cols, values[..]);
      assert cols[..|cols|] == cols;
    }

    /** Scans rows into distinct fresh nodes, in order. */
    static method ScanNodes(cols: seq<AccountColumn>, rows: seq<AccountRow>, loaded: Loaded)
      returns (nodes: seq<Account>, err: Option<Error>)
      requires forall r | r in rows :: WellTyped(r)
      ensures err == None && |nodes| == |rows| && Distinct(nodes) && fresh(nodes)
      ensures forall i | 0 <= i < |rows| ::
        nodes[i].Contents() == Fields(ProjectAccount(cols, rows[i]), loaded, [], null, null, [], [])
    {
      nodes := [];
      for i := 0 to |rows|
        invariant |nodes| == i && Distinct(nodes) && fresh(nodes)
        invariant forall j | 0 <= j < i ::
          nodes[j].Contents() == Fields(ProjectAccount(cols, rows[j]), loaded, [], null, null, [], [])
      {
        assert rows[i] in rows;
        var node;
        node, err := ScanNode(cols, rows[i], loaded);
        if err.Some? { return; }
        nodes := nodes + [node];
      }
      err := None;
    }

    // ----- running -----

    /** The whole run: preparing, scanning, and loading every requested edge. The result is a list of
        distinct fresh objects that stand, in order, for the trees that the query denotes; they and
        everything they lead to form a closed world. Only builders of this query are changed. */
    method All(db: Snapshot) returns (r: Result<seq<Account>, Error>, ghost w: World)
      requires Valid() && Stored(db)
      modifies Repr
      ensures r.Failure? <==> AccountsError(db, old(Value())).Some?
      ensures r.Failure? ==> Some(r.error) == AccountsError(db, old(Value()))
      ensures r.Success? ==> LoadedAccounts(r.value, Accounts(db, old(Value())), w)
      ensures fresh(w.accounts.Keys) && fresh(w.joins.Keys)
      decreases Repr, 3
    {
      ghost var q := Value();
      var err := PrepareQuery();
      if err.Some? { return Failure(err.value), EMPTY; }
      PreparedAccounts(db, q);
      r, w := SqlAll(db);
    }

    method SqlAll(db: Snapshot) returns (r: Result<seq<Account>, Error>, ghost w: World)
      requires Valid() && Stored(db)
      modifies Repr
      ensures var q := old(Value()).(criteria := Plain(old(criteria)));
        var batch := ScannedAccounts(db, q);
        && (r.Failure? <==> batch != [] && EdgesError(db, q, batch).Some?)
        && (r.Failure? ==> Some(r.error) == EdgesError(db, q, batch))
        && (r.Success? ==> LoadedAccounts(r.value, Accounts(db, q), w))
      ensures (forall a | a in w.accounts :: fresh(a)) && forall j | j in w.joins :: fresh(j)
      decreases Repr, 2
    {
      w := EMPTY;
      ghost var q := Value().(criteria := Plain(criteria));
      ghost var batch := ScannedAccounts(db, q);
      var nodes, err := FetchNodes(db, q);
      match err {
        case Some(e) => return Failure(e), w;
        case None =>
      }
      if |nodes| == 0 { return Success(nodes), w; }
      LeavesPending(q);
      TreesPending(nodes, q);
      r, w := Finish(nodes, db, q, batch);
    }

    /** Loads the edges of a batch that is not empty, and counts its nodes among the finished ones. */
    method Finish(nodes: seq<Account>, db: Snapshot, ghost q: AccountQ, ghost batch: seq<AccountRow>)
      returns (r: Result<seq<Account>, Error>, ghost w: World)
      requires Stored(db) && PendingLeaves(q) && PendingParent(q, nodes, EMPTY) && UniqueBy(AccountKey, batch)
      requires NodesOK(nodes, BareTrees(batch, LoadedOf(q)), EMPTY) && batch == ScannedAccounts(db, q)
      modifies Repr, (set x | x in nodes)`groups, (set x | x in nodes)`proxy, (set x | x in nodes)`parent,
               (set x | x in nodes)`children, (set x | x in nodes)`accountGroups
      ensures r.Failure? <==> EdgesError(db, q, batch).Some?
      ensures r.Failure? ==> Some(r.error) == EdgesError(db, q, batch)
      ensures r.Success? ==> r.value == nodes && LoadedAccounts(nodes, Accounts(db, q), w)
      ensures forall a | a in w.accounts :: fresh(a) || a in nodes
      ensures forall j | j in w.joins :: fresh(j)
      decreases Repr, 1
    {
      var err;
      err, w := LoadEdges(nodes, db, q, batch);
      if err.Some? { return Failure(err.value), w; }
      StagesAreAccounts(db, q);
      CompleteIsClosed(nodes, Accounts(db, q), w);
      w := Complete(nodes, Accounts(db, q), w);
      r := Success(nodes);
    }

    /** Scans the selected rows into fresh nodes that do not have any edges yet. */
    method FetchNodes(db: Snapshot, ghost q: AccountQ) returns (nodes: seq<Account>, err: Option<Error>)
      requires Valid() && Stored(db) && q == Value().(criteria := Plain(criteria))
      ensures err == None && fresh(nodes)
      ensures NodesOK(nodes, BareTrees(ScannedAccounts(db, q), LoadedOf(q)), EMPTY)
      ensures UniqueBy(AccountKey, ScannedAccounts(db, q))
    {
      var cols := QuerySpec();
      var c := Plain(criteria);
      var rows := SelectRows(c, db.accounts);
      forall r | r in rows ensures WellTyped(r) { SelectMember(c, db.accounts, r); }
      UniqueScan(db, q);
      var loaded := Loaded(withGroups != null, withProxy != null, withParent != null, withChildren != null,
                           withAccountGroups != null);
      nodes, err := ScanNodes(cols, rows, loaded);
    }

    /** The errors of the edges whose queries have no edges of their own come before those of the others. */
    static lemma LeafErrorsFirst(db: Snapshot, q: AccountQ, batch: seq<AccountRow>)
      ensures EdgesError(db, q, batch) ==
              OrElse(OrElse(GroupsError(q), ProxyError(q, batch)),
                     OrElse(ParentError(db, q, batch),
                            OrElse(ChildrenError(db, q, batch), AccountGroupsError(db, q, batch))))
    {
    }

    /** Loads the requested edges of a batch of fresh nodes, one after the other. */
    method LoadEdges(nodes: seq<Account>, db: Snapshot, ghost q: AccountQ, ghost batch: seq<AccountRow>)
      returns (err: Option<Error>, ghost w: World)
      requires Stored(db) && PendingLeaves(q) && PendingParent(q, nodes, EMPTY) && UniqueBy(AccountKey, batch)
      requires NodesOK(nodes, BareTrees(batch, LoadedOf(q)), EMPTY)
      modifies Repr, (set x | x in nodes)`groups, (set x | x in nodes)`proxy, (set x | x in nodes)`parent,
               (set x | x in nodes)`children, (set x | x in nodes)`accountGroups
      ensures err == EdgesError(db, q, batch)
      ensures err.None? ==> NodesOK(nodes, AllStages(db, q, batch), w) && Closed(w)
      ensures fresh(w.accounts.Keys) && fresh(w.joins.Keys)
      decreases Repr, 0
    {
      w := EMPTY;
      LeafErrorsFirst(db, q, batch);
      err := LoadLeafEdgesFirst(nodes, db, q, batch);
      if err.Some? { return; }
      LeafStagesKeep(db, q, batch);
      err, w := LoadTreeEdges(nodes, db, q, batch, LeafStages(db, q, batch));
    }

    /** An edge query that still has to run denotes what it denoted at the start. */
    ghost predicate Pending(sub: AccountQuery?, value: Option<AccountQ>, nodes: seq<Account>, w: World)
      reads this, ReprOf(sub)
    {
      if sub == null then value == None
      else
        && sub in Repr && sub.Repr <= Repr && this !in sub.Repr
        && value.Some? && Denotation(sub) == value && OutsideOf(sub.Repr, nodes, w)
    }

    ghost predicate PendingJoin(q: AccountQ, nodes: seq<Account>, w: World)
      reads this, JoinReprOf(withAccountGroups)
    {
      if withAccountGroups == null then q.withAccountGroups == None
      else
        && withAccountGroups in Repr && withAccountGroups.Repr <= Repr && this !in withAccountGroups.Repr
        && q.withAccountGroups.Some? && JoinDenotation(withAccountGroups) == q.withAccountGroups
        && OutsideOf(withAccountGroups.Repr, nodes, w)
    }

    ghost predicate PendingChildren(q: AccountQ, nodes: seq<Account>, w: World)
      reads this, ReprOf(withChildren), JoinReprOf(withAccountGroups)
    {
      && PendingJoin(q, nodes, w) && Pending(withChildren, q.withChildren, nodes, w)
      && (withChildren != null && withAccountGroups != null ==> withChildren.Repr !! withAccountGroups.Repr)
    }

    ghost predicate PendingParent(q: AccountQ, nodes: seq<Account>, w: World)
      reads this, ReprOf(withParent), ReprOf(withChildren), JoinReprOf(withAccountGroups)
    {
      && PendingChildren(q, nodes, w) && Pending(withParent, q.withParent, nodes, w)
      && (withParent != null && withChildren != null ==> withParent.Repr !! withChildren.Repr)
      && (withParent != null && withAccountGroups != null ==> withParent.Repr !! withAccountGroups.Repr)
    }

    ghost function LeafBuilders(): set<LeafQuery>
      reads this
    {
      LeafSet(withGroups) + LeafSet(withProxy)
    }

    ghost function TreeBuilders(): set<object>
      reads this, withParent, withChildren, withAccountGroups
    {
      ReprOf(withParent) + ReprOf(withChildren) + JoinReprOf(withAccountGroups)
    }

    ghost predicate PendingLeaves(q: AccountQ)
      reads this, LeafBuilders(), withParent, withChildren, withAccountGroups
    {
      && q.withGroups == LeafValueOf(withGroups) && q.withProxy == LeafValueOf(withProxy)
      && (withProxy != null ==> withProxy != withGroups)
      && LeafBuilders() !! TreeBuilders() && LeafBuilders() <= Repr && this in Repr
    }

    /** At the start, every edge query of a well-formed builder is pending. */
    lemma LeavesPending(q: AccountQ)
      requires Valid() && q == Value().(criteria := q.criteria)
      ensures PendingLeaves(q)
    {
    }

    lemma TreesPending(nodes: seq<Account>, q: AccountQ)
      requires Valid() && OutsideOf(Repr, nodes, EMPTY) && q == Value().(criteria := q.criteria)
      ensures PendingParent(q, nodes, EMPTY)
    {
    }

    method StepGroups(nodes: seq<Account>, db: Snapshot, ghost q: AccountQ, ghost batch: seq<AccountRow>,
                      ghost t: seq<AccountTree>, ghost w: World)
      returns (err: Option<Error>)
      requires Stored(db) && NodesOK(nodes, t, w) && TreesOver(t, batch) && UniqueBy(AccountKey, batch)
      requires forall i | 0 <= i < |t| :: t[i].groups == []
      requires PendingLeaves(q)
      modifies if withGroups == null then {} else {withGroups}, (set x | x in nodes)`groups
      ensures err == GroupsError(q)
      ensures err.None? ==> NodesOK(nodes, StageGroups(db, q.withGroups, batch, t), w)
      ensures q.withProxy == LeafValueOf(withProxy)
    {
      if withGroups == null { return None; }
      err := LoadGroups(withGroups, nodes, db, batch, t, w);
    }

    method StepProxy(nodes: seq<Account>, db: Snapshot, ghost q: AccountQ, ghost batch: seq<AccountRow>,
                     ghost t: seq<AccountTree>, ghost w: World)
      returns (err: Option<Error>)
      requires Stored(db) && NodesOK(nodes, t, w) && TreesOver(t, batch)
      requires q.withProxy == LeafValueOf(withProxy) && forall i | 0 <= i < |t| :: t[i].proxy == None
      modifies if withProxy == null then {} else {withProxy}, (set x | x in nodes)`proxy
      ensures err == ProxyError(q, batch)
      ensures err.None? ==> NodesOK(nodes, StageProxy(db, q.withProxy, batch, t), w)
    {
      if withProxy == null { return None; }
      err := LoadProxy(withProxy, nodes, db, batch, t, w);
    }

    /** Loads the two edges whose queries have no edges of their own. */
    method LoadLeafEdges(nodes: seq<Account>, db: Snapshot, ghost q: AccountQ, ghost batch: seq<AccountRow>)
      returns (err: Option<Error>)
      requires Stored(db) && UniqueBy(AccountKey, batch) && NodesOK(nodes, BareTrees(batch, LoadedOf(q)), EMPTY)
      requires PendingLeaves(q)
      modifies LeafBuilders(), (set x | x in nodes)`groups, (set x | x in nodes)`proxy
      ensures err == OrElse(GroupsError(q), ProxyError(q, batch))
      ensures err.None? ==> NodesOK(nodes, LeafStages(db, q, batch), EMPTY)
    {
      ghost var t := BareTrees(batch, LoadedOf(q));
      err := StepGroups(nodes, db, q, batch, t, EMPTY);
      if err.Some? { return; }
      t := StageGroups(db, q.withGroups, batch, t);
      err := StepProxy(nodes, db, q, batch, t, EMPTY);
    }

    /** They are loaded first, which leaves the other edge queries as they were. */
    method LoadLeafEdgesFirst(nodes: seq<Account>, db: Snapshot, ghost q: AccountQ, ghost batch: seq<AccountRow>)
      returns (err: Option<Error>)
      requires Stored(db) && UniqueBy(AccountKey, batch) && NodesOK(nodes, BareTrees(batch, LoadedOf(q)), EMPTY)
      requires PendingLeaves(q) && PendingParent(q, nodes, EMPTY)
      modifies LeafBuilders(), (set x | x in nodes)`groups, (set x | x in nodes)`proxy
      ensures err == OrElse(GroupsError(q), ProxyError(q, batch))
      ensures err.None? ==> NodesOK(nodes, LeafStages(db, q, batch), EMPTY)
      ensures PendingParent(q, nodes, EMPTY) && Repr == old(Repr)
    {
      err := LoadLeafEdges(nodes, db, q, batch);
      assert PendingJoin(q, nodes, EMPTY);
      assert Pending(withChildren, q.withChildren, nodes, EMPTY) && Pending(withParent, q.withParent, nodes, EMPTY);
    }

    method StepParent(nodes: seq<Account>, db: Snapshot, ghost q: AccountQ, ghost batch: seq<AccountRow>,
                      ghost t: seq<AccountTree>, ghost w: World)
      returns (err: Option<Error>, ghost u: World)
      requires Stored(db) && NodesOK(nodes, t, w) && TreesOver(t, batch) && Closed(w)
      requires PendingParent(q, nodes, w) && forall i | 0 <= i < |t| :: t[i].parent == None
      modifies if withParent == null then {} else withParent.Repr, (set x | x in nodes)`parent
      ensures err == ParentError(db, q, batch)
      ensures err.None? ==> NodesOK(nodes, StageParent(db, q.withParent, batch, t), u) && Closed(u)
      ensures err.None? ==> PendingChildren(q, nodes, u)
      ensures forall a | a in u.accounts :: a in w.accounts || fresh(a)
      ensures forall j | j in u.joins :: j in w.joins || fresh(j)
      decreases if withParent == null then {} else withParent.Repr, 8
    {
      err, u := StepParentAlone(nodes, db, q, batch, t, w);
    }

    method StepParentAlone(nodes: seq<Account>, db: Snapshot, ghost q: AccountQ, ghost batch: seq<AccountRow>,
                           ghost t: seq<AccountTree>, ghost w: World)
      returns (err: Option<Error>, ghost u: World)
      requires Stored(db) && NodesOK(nodes, t, w) && TreesOver(t, batch) && Closed(w)
      requires Pending(withParent, q.withParent, nodes, w) && forall i | 0 <= i < |t| :: t[i].parent == None
      modifies if withParent == null then {} else withParent.Repr, (set x | x in nodes)`parent
      ensures err == ParentError(db, q, batch)
      ensures err.None? ==> NodesOK(nodes, StageParent(db, q.withParent, batch, t), u) && Closed(u)
      ensures forall a | a in u.accounts :: a in w.accounts || fresh(a)
      ensures forall j | j in u.joins :: j in w.joins || fresh(j)
      decreases if withParent == null then {} else withParent.Repr, 8, 0
    {
      if withParent == null { return None, w; }
      err, u := LoadParent(withParent, nodes, db, batch, t, w);
    }

    method StepChildren(nodes: seq<Account>, db: Snapshot, ghost q: AccountQ, ghost batch: seq<AccountRow>,
                        ghost t: seq<AccountTree>, ghost w: World)
      returns (err: Option<Error>, ghost u: World)
      requires Stored(db) && NodesOK(nodes, t, w) && TreesOver(t, batch) && Closed(w) && UniqueBy(AccountKey, batch)
      requires PendingChildren(q, nodes, w) && forall i | 0 <= i < |t| :: t[i].children == []
      modifies if withChildren == null then {} else withChildren.Repr, (set x | x in nodes)`children
      ensures err == ChildrenError(db, q, batch)
      ensures err.None? ==> NodesOK(nodes, StageChildren(db, q.withChildren, batch, t), u) && Closed(u)
      ensures err.None? ==> PendingJoin(q, nodes, u)
      ensures forall a | a in u.accounts :: a in w.accounts || fresh(a)
      ensures forall j | j in u.joins :: j in w.joins || fresh(j)
      decreases if withChildren == null then {} else withChildren.Repr, 8
    {
      err, u := StepChildrenAlone(nodes, db, q, batch, t, w);
    }

    method StepChildrenAlone(nodes: seq<Account>, db: Snapshot, ghost q: AccountQ, ghost batch: seq<AccountRow>,
                             ghost t: seq<AccountTree>, ghost w: World)
      returns (err: Option<Error>, ghost u: World)
      requires Stored(db) && NodesOK(nodes, t, w) && TreesOver(t, batch) && Closed(w) && UniqueBy(AccountKey, batch)
      requires Pending(withChildren, q.withChildren, nodes, w) && forall i | 0 <= i < |t| :: t[i].children == []
      modifies if withChildren == null then {} else withChildren.Repr, (set x | x in nodes)`children
      ensures err == ChildrenError(db, q, batch)
      ensures err.None? ==> NodesOK(nodes, StageChildren(db, q.withChildren, batch, t), u) && Closed(u)
      ensures forall a | a in u.accounts :: a in w.accounts || fresh(a)
      ensures forall j | j in u.joins :: j in w.joins || fresh(j)
      decreases if withChildren == null then {} else withChildren.Repr, 8, 0
    {
      if withChildren == null { return None, w; }
      err, u := LoadChildren(withChildren, nodes, db, batch, t, w);
    }

    method StepAccountGroups(nodes: seq<Account>, db: Snapshot, ghost q: AccountQ, ghost batch: seq<AccountRow>,
                             ghost t: seq<AccountTree>, ghost w: World)
      returns (err: Option<Error>, ghost u: World)
      requires Stored(db) && NodesOK(nodes, t, w) && TreesOver(t, batch) && Closed(w) && UniqueBy(AccountKey, batch)
      requires PendingJoin(q, nodes, w) && forall i | 0 <= i < |t| :: t[i].accountGroups == []
      modifies if withAccountGroups == null then {} else withAccountGroups.Repr, (set x | x in nodes)`accountGroups
      ensures err == AccountGroupsError(db, q, batch)
      ensures err.None? ==> NodesOK(nodes, StageJoins(db, q.withAccountGroups, batch, t), u) && Closed(u)
      ensures forall a | a in u.accounts :: a in w.accounts || fresh(a)
      ensures forall j | j in u.joins :: j in w.joins || fresh(j)
      decreases if withAccountGroups == null then {} else withAccountGroups.Repr, 8
    {
      if withAccountGroups == null { return None, w; }
      err, u := LoadAccountGroups(withAccountGroups, nodes, db, batch, t, w);
    }

    /** Loads the three edges whose queries may have edges of their own. */
    method LoadTreeEdges(nodes: seq<Account>, db: Snapshot, ghost q: AccountQ, ghost batch: seq<AccountRow>,
                         ghost t: seq<AccountTree>)
      returns (err: Option<Error>, ghost w: World)
      requires Stored(db) && UniqueBy(AccountKey, batch) && NodesOK(nodes, t, EMPTY) && TreesOver(t, batch)
      requires this in Repr && PendingParent(q, nodes, EMPTY)
      requires forall i | 0 <= i < |t| :: t[i].parent == None && t[i].children == [] && t[i].accountGroups == []
      modifies ReprOf(withParent), ReprOf(withChildren), JoinReprOf(withAccountGroups),
               (set x | x in nodes)`parent, (set x | x in nodes)`children, (set x | x in nodes)`accountGroups
      ensures err ==
              OrElse(ParentError(db, q, batch), OrElse(ChildrenError(db, q, batch), AccountGroupsError(db, q, batch)))
      ensures err.None? ==> NodesOK(nodes, TreeStages(db, q, batch, t), w) && Closed(w)
      ensures (forall a | a in w.accounts :: fresh(a)) && forall j | j in w.joins :: fresh(j)
      decreases Repr, 0, 0
    {
      err, w := StepParentFirst(nodes, db, q, batch, t);
      if err.None? { err, w := LoadLists(nodes, db, q, batch, StageParent(db, q.withParent, batch, t), w); }
    }

    /** Loads the parents, with no other world around, and leaves the trees ready for the lists. */
    method StepParentFirst(nodes: seq<Account>, db: Snapshot, ghost q: AccountQ, ghost batch: seq<AccountRow>,
                           ghost t: seq<AccountTree>)
      returns (err: Option<Error>, ghost w: World)
      requires Stored(db) && NodesOK(nodes, t, EMPTY) && TreesOver(t, batch) && PendingParent(q, nodes, EMPTY)
      requires forall i | 0 <= i < |t| :: t[i].parent == None && t[i].children == [] && t[i].accountGroups == []
      modifies if withParent == null then {} else withParent.Repr, (set x | x in nodes)`parent
      ensures err == ParentError(db, q, batch)
      ensures err.None? ==>
        var s := StageParent(db, q.withParent, batch, t);
        && NodesOK(nodes, s, w) && Closed(w) && TreesOver(s, batch) && PendingChildren(q, nodes, w)
        && forall i | 0 <= i < |s| :: s[i].children == [] && s[i].accountGroups == []
      ensures (forall a | a in w.accounts :: fresh(a)) && forall j | j in w.joins :: fresh(j)
      decreases if withParent == null then {} else withParent.Repr, 9
    {
      err, w := StepParent(nodes, db, q, batch, t, EMPTY);
      LessNothing(w);
    }

    method LoadLists(nodes: seq<Account>, db: Snapshot, ghost q: AccountQ, ghost batch: seq<AccountRow>,
                     ghost t: seq<AccountTree>, ghost w: World)
      returns (err: Option<Error>, ghost u: World)
      requires Stored(db) && UniqueBy(AccountKey, batch) && NodesOK(nodes, t, w) && TreesOver(t, batch) && Closed(w)
      requires this in Repr && PendingChildren(q, nodes, w)
      requires forall i | 0 <= i < |t| :: t[i].children == [] && t[i].accountGroups == []
      modifies ReprOf(withChildren), JoinReprOf(withAccountGroups), (set x | x in nodes)`children,
               (set x | x in nodes)`accountGroups
      ensures err == OrElse(ChildrenError(db, q, batch), AccountGroupsError(db, q, batch))
      ensures err.None? ==>
        && NodesOK(nodes, StageJoins(db, q.withAccountGroups, batch, StageChildren(db, q.withChildren, batch, t)), u)
        && Closed(u)
      ensures forall a | a in u.accounts :: a in w.accounts || fresh(a)
      ensures forall j | j in u.joins :: j in w.joins || fresh(j)
      decreases Repr, 0, 0, 0
    {
      err, u := StepChildren(nodes, db, q, batch, t, w);
      if err.Some? { return; }
      err, u := StepAccountGroups(nodes, db, q, batch, StageChildren(db, q.withChildren, batch, t), u);
    }

    // ----- loaders -----

    /** Runs the query while a batch of nodes is waiting for its results. */
    method AllBeside(db: Snapshot, ghost nodes: seq<Account>, ghost t: seq<AccountTree>, ghost w: World)
      returns (r: Result<seq<Account>, Error>, ghost v: World)
      requires Valid() && Stored(db)
      requires NodesOK(nodes, t, w) && Closed(w) && OutsideOf(Repr, nodes, w)
      modifies Repr
      ensures r.Failure? <==> AccountsError(db, old(Value())).Some?
      ensures r.Failure? ==> Some(r.error) == AccountsError(db, old(Value()))
      ensures r.Success? ==> LoadedAccounts(r.value, Accounts(db, old(Value())), v)
      ensures NodesOK(nodes, t, w) && Closed(w)
      ensures Apart(w, v) && forall x | x in nodes :: x !in v.accounts
      ensures fresh(v.accounts.Keys) && fresh(v.joins.Keys)
      decreases Repr, 4
    {
      r, v := All(db);
    }

    /** The same, narrowed to a list of ids. */
    method AllByID(db: Snapshot, ids: seq<int>, ghost nodes: seq<Account>, ghost t: seq<AccountTree>, ghost w: World)
      returns (r: Result<seq<Account>, Error>, ghost v: World)
      requires Valid() && Stored(db)
      requires NodesOK(nodes, t, w) && Closed(w) && OutsideOf(Repr, nodes, w)
      modifies Repr
      ensures r.Failure? <==> AccountsError(db, Queries.Where(old(Value()), IDIn(ids))).Some?
      ensures r.Failure? ==> Some(r.error) == AccountsError(db, Queries.Where(old(Value()), IDIn(ids)))
      ensures r.Success? ==>
        var trees := Accounts(db, Queries.Where(old(Value()), IDIn(ids)));
        LoadedAccounts(r.value, trees, v) && forall i | 0 <= i < |trees| :: trees[i].row.id in ids
      ensures NodesOK(nodes, t, w) && Closed(w)
      ensures Apart(w, v) && forall x | x in nodes :: x !in v.accounts
      ensures fresh(v.accounts.Keys) && fresh(v.joins.Keys)
      decreases Repr, 5
    {
      SelectedIDs(db, Value(), ids);
      Where(IDIn(ids));
      r, v := AllBeside(db, nodes, t, w);
    }

    /** The same for a batch of join rows. */
    method AllByIDForJoins(db: Snapshot, ids: seq<int>, ghost nodes: seq<AccountGroup>, ghost t: seq<JoinTree>)
      returns (r: Result<seq<Account>, Error>, ghost v: World)
      requires Valid() && Stored(db)
      requires JoinNodesOK(nodes, t, EMPTY) && forall x | x in nodes :: x !in Repr
      modifies Repr
      ensures r.Failure? <==> AccountsError(db, Queries.Where(old(Value()), IDIn(ids))).Some?
      ensures r.Failure? ==> Some(r.error) == AccountsError(db, Queries.Where(old(Value()), IDIn(ids)))
      ensures r.Success? ==>
        var trees := Accounts(db, Queries.Where(old(Value()), IDIn(ids)));
        LoadedAccounts(r.value, trees, v) && forall i | 0 <= i < |trees| :: trees[i].row.id in ids
      ensures JoinNodesOK(nodes, t, EMPTY)
      ensures Apart(EMPTY, v) && forall x | x in nodes :: x !in v.joins
      ensures fresh(v.accounts.Keys) && fresh(v.joins.Keys)
      decreases Repr, 5
    {
      SelectedIDs(db, Value(), ids);
      Where(IDIn(ids));
      r, v := All(db);
    }

    static method LoadParent(query: AccountQuery, nodes: seq<Account>, db: Snapshot,
                             ghost batch: seq<AccountRow>, ghost t: seq<AccountTree>, ghost w: World)
      returns (err: Option<Error>, ghost u: World)
      requires query.Valid() && Stored(db) && NodesOK(nodes, t, w) && TreesOver(t, batch) && Closed(w)
      requires OutsideOf(query.Repr, nodes, w)
      requires forall i | 0 <= i < |t| :: t[i].parent == None
      modifies query.Repr, (set x | x in nodes)`parent
      ensures err == if FirstSeen(ParentKeys(batch)) == [] then None
                     else AccountsError(db, Queries.Where(old(query.Value()), IDIn(FirstSeen(ParentKeys(batch)))))
      ensures err.None? ==> NodesOK(nodes, StageParent(db, Some(old(query.Value())), batch, t), u) && Closed(u)
      ensures forall a | a in u.accounts :: a in w.accounts || fresh(a)
      ensures forall j | j in u.joins :: j in w.joins || fresh(j)
      decreases query.Repr, 7
    {
      ghost var q := query.Value();
      ghost var goal := StageParent(db, Some(q), batch, t);
      assert goal ==
             WithParents(t, ParentKeys(batch), Accounts(db, Queries.Where(q, IDIn(FirstSeen(ParentKeys(batch))))));
      var ids, nodeids := IndexParents(nodes, batch, t, w);
      if |ids| == 0 {
        NoParents(db, q, batch, t);
        return None, w;
      }
      err, u := FillParent(query, nodes, db, ParentKeys(batch), ids, nodeids, (set x | x in nodes), t, w);
    }

    static method IndexParents(nodes: seq<Account>, ghost batch: seq<AccountRow>, ghost t: seq<AccountTree>,
                               ghost w: World)
      returns (ids: seq<int>, nodeids: map<int, seq<Account>>)
      requires NodesOK(nodes, t, w) && TreesOver(t, batch)
      ensures |nodes| == |batch| && Indexed(nodes, ParentKeys(batch), ids, nodeids)
    {
      NodesAgree(nodes, t, w);
      var keys := seq(|nodes|, i requires 0 <= i < |nodes| reads nodes => nodes[i].parentAccountID);
      assert keys == ParentKeys(batch);
      ids, nodeids := GroupByKey(nodes, keys);
    }

    static method FillParent(query: AccountQuery, nodes: seq<Account>, db: Snapshot, ghost keys: seq<Option<int>>,
                             ids: seq<int>, nodeids: map<int, seq<Account>>, ghost scope: set<Account>,
                             ghost t: seq<AccountTree>, ghost w: World)
      returns (err: Option<Error>, ghost u: World)
      requires query.Valid() && Stored(db) && NodesOK(nodes, t, w) && Closed(w) && OutsideOf(query.Repr, nodes, w)
      requires forall i | 0 <= i < |t| :: t[i].parent == None
      requires scope == (set x | x in nodes) && |keys| == |nodes| && Indexed(nodes, keys, ids, nodeids)
      modifies query.Repr, scope`parent
      ensures err == AccountsError(db, Queries.Where(old(query.Value()), IDIn(ids)))
      ensures err.None? ==>
        NodesOK(nodes, WithParents(t, keys, Accounts(db, Queries.Where(old(query.Value()), IDIn(ids)))), u) && Closed(u)
      ensures forall a | a in u.accounts :: a in w.accounts || fresh(a)
      ensures forall j | j in u.joins :: j in w.joins || fresh(j)
      decreases query.Repr, 6
    {
      u := w;
      ghost var trees := Accounts(db, Queries.Where(query.Value(), IDIn(ids)));
      var neighbors; ghost var v;
      neighbors, v := query.AllByID(db, ids, nodes, t, w);
      if neighbors.Failure? { return Some(neighbors.error), u; }
      u := Union(w, v);
      err := AttachParent(nodes, keys, ids, nodeids, neighbors.value, trees, scope, t, w, v);
    }

    /** The query narrowed to the children of a list of ids, with their key among its columns. */
    method AllByParent(db: Snapshot, fks: seq<int>, ghost nodes: seq<Account>, ghost t: seq<AccountTree>,
                       ghost w: World)
      returns (r: Result<seq<Account>, Error>, ghost v: World)
      requires Valid() && Stored(db)
      requires NodesOK(nodes, t, w) && Closed(w) && OutsideOf(Repr, nodes, w)
      modifies Repr
      ensures r.Failure? <==> AccountsError(db, Queries.Where(KeyedChild(old(Value())), ParentIn(fks))).Some?
      ensures r.Failure? ==> Some(r.error) == AccountsError(db, Queries.Where(KeyedChild(old(Value())), ParentIn(fks)))
      ensures r.Success? ==>
        var trees := Accounts(db, Queries.Where(KeyedChild(old(Value())), ParentIn(fks)));
        && LoadedAccounts(r.value, trees, v)
        && forall i | 0 <= i < |trees| ::
             trees[i].row.parentAccountID.Some? && trees[i].row.parentAccountID.value in fks
      ensures NodesOK(nodes, t, w) && Closed(w)
      ensures Apart(w, v) && forall x | x in nodes :: x !in v.accounts
      ensures fresh(v.accounts.Keys) && fresh(v.joins.Keys)
      decreases Repr, 5
    {
      SelectedChildren(db, Value(), fks);
      SelectKey();
      Where(ParentIn(fks));
      r, v := AllBeside(db, nodes, t, w);
    }

    /** Indexes a batch by id and empties the edge, which is empty already. */
    static method IndexForChildren(nodes: seq<Account>, ghost batch: seq<AccountRow>, ghost t: seq<AccountTree>,
                                   ghost w: World)
      returns (fks: seq<int>, nodeids: map<int, Account>)
      requires NodesOK(nodes, t, w) && TreesOver(t, batch) && UniqueBy(AccountKey, batch)
      requires forall i | 0 <= i < |t| :: t[i].children == []
      modifies (set x | x in nodes)`children
      ensures NodesOK(nodes, t, w) && UniqueIDs(nodes) && IndexedByID(nodes, nodeids)
      ensures fks == IDs(batch) && forall k | k in fks :: k in nodeids
    {
      NodesAgree(nodes, t, w);
      UniqueRows(nodes, batch);
      ghost var had := ContentsOf(nodes);
      fks, nodeids := IndexChildren(nodes, set x | x in nodes);
      assert ContentsOf(nodes) == had;
      assert fks == IDs(batch);
    }

    static method LoadChildren(query: AccountQuery, nodes: seq<Account>, db: Snapshot,
                               ghost batch: seq<AccountRow>, ghost t: seq<AccountTree>, ghost w: World)
      returns (err: Option<Error>, ghost u: World)
      requires query.Valid() && Stored(db) && NodesOK(nodes, t, w) && TreesOver(t, batch) && Closed(w)
      requires OutsideOf(query.Repr, nodes, w) && UniqueBy(AccountKey, batch)
      requires forall i | 0 <= i < |t| :: t[i].children == []
      modifies query.Repr, (set x | x in nodes)`children
      ensures err == AccountsError(db, Queries.Where(KeyedChild(old(query.Value())), ParentIn(IDs(batch))))
      ensures err.None? ==> NodesOK(nodes, StageChildren(db, Some(old(query.Value())), batch, t), u) && Closed(u)
      ensures forall a | a in u.accounts :: a in w.accounts || fresh(a)
      ensures forall j | j in u.joins :: j in w.joins || fresh(j)
      decreases query.Repr, 7
    {
      u := w;
      ghost var q := query.Value();
      var fks, nodeids := IndexForChildren(nodes, batch, t, w);
      assert query.Value() == q;
      err, u := FillChildren(query, nodes, db, fks, nodeids, (set x | x in nodes), t, w);
    }

    static method FillChildren(query: AccountQuery, nodes: seq<Account>, db: Snapshot, fks: seq<int>,
                               nodeids: map<int, Account>, ghost scope: set<Account>, ghost t: seq<AccountTree>,
                               ghost w: World)
      returns (err: Option<Error>, ghost u: World)
      requires query.Valid() && Stored(db) && NodesOK(nodes, t, w) && Closed(w) && OutsideOf(query.Repr, nodes, w)
      requires forall i | 0 <= i < |t| :: t[i].children == []
      requires scope == (set x | x in nodes) && UniqueIDs(nodes) && IndexedByID(nodes, nodeids)
      requires forall k | k in fks :: k in nodeids
      modifies query.Repr, scope`children
      ensures err == AccountsError(db, Queries.Where(KeyedChild(old(query.Value())), ParentIn(fks)))
      ensures err.None? ==>
        && NodesOK(nodes, WithChildren(t, Accounts(db, Queries.Where(KeyedChild(old(query.Value())), ParentIn(fks)))),
                   u)
        && Closed(u)
      ensures forall a | a in u.accounts :: a in w.accounts || fresh(a)
      ensures forall j | j in u.joins :: j in w.joins || fresh(j)
      decreases query.Repr, 6
    {
      u := w;
      ghost var trees := Accounts(db, Queries.Where(KeyedChild(query.Value()), ParentIn(fks)));
      var neighbors; ghost var v;
      neighbors, v := query.AllByParent(db, fks, nodes, t, w);
      if neighbors.Failure? { return Some(neighbors.error), u; }
      forall i | 0 <= i < |trees|
        ensures trees[i].row.parentAccountID.Some? && trees[i].row.parentAccountID.value in nodeids
      {
        var k := trees[i].row.parentAccountID.value;
        assert k in fks;
      }
      u := Union(w, v);
      err := AttachChildren(nodes, nodeids, neighbors.value, trees, scope, t, w, v);
    }

    static method IndexForAccountGroups(nodes: seq<Account>, ghost batch: seq<AccountRow>, ghost t: seq<AccountTree>,
                                        ghost w: World)
      returns (fks: seq<int>, nodeids: map<int, Account>)
      requires NodesOK(nodes, t, w) && TreesOver(t, batch) && UniqueBy(AccountKey, batch)
      requires forall i | 0 <= i < |t| :: t[i].accountGroups == []
      modifies (set x | x in nodes)`accountGroups
      ensures NodesOK(nodes, t, w) && UniqueIDs(nodes) && IndexedByID(nodes, nodeids)
      ensures fks == IDs(batch) && forall k | k in fks :: k in nodeids
    {
      NodesAgree(nodes, t, w);
      UniqueRows(nodes, batch);
      ghost var had := ContentsOf(nodes);
      fks, nodeids := IndexAccountGroups(nodes, set x | x in nodes);
      assert ContentsOf(nodes) == had;
      assert fks == IDs(batch);
    }

    static method LoadAccountGroups(query: AccountGroupQuery, nodes: seq<Account>, db: Snapshot,
                                    ghost batch: seq<AccountRow>, ghost t: seq<AccountTree>, ghost w: World)
      returns (err: Option<Error>, ghost u: World)
      requires query.Valid() && Stored(db) && NodesOK(nodes, t, w) && TreesOver(t, batch) && Closed(w)
      requires OutsideOf(query.Repr, nodes, w) && UniqueBy(AccountKey, batch)
      requires forall i | 0 <= i < |t| :: t[i].accountGroups == []
      modifies query.Repr, (set x | x in nodes)`accountGroups
      ensures err == JoinsError(db, WhereJoin(KeyedJoin(old(query.Value())), AccountIn(IDs(batch))))
      ensures err.None? ==> NodesOK(nodes, StageJoins(db, Some(old(query.Value())), batch, t), u) && Closed(u)
      ensures forall a | a in u.accounts :: a in w.accounts || fresh(a)
      ensures forall j | j in u.joins :: j in w.joins || fresh(j)
      decreases query.Repr, 7
    {
      u := w;
      ghost var q := query.Value();
      var fks, nodeids := IndexForAccountGroups(nodes, batch, t, w);
      assert query.Value() == q;
      err, u := FillAccountGroups(query, nodes, db, fks, nodeids, (set x | x in nodes), t, w);
    }

    static method FillAccountGroups(query: AccountGroupQuery, nodes: seq<Account>, db: Snapshot, fks: seq<int>,
                                    nodeids: map<int, Account>, ghost scope: set<Account>, ghost t: seq<AccountTree>,
                                    ghost w: World)
      returns (err: Option<Error>, ghost u: World)
      requires query.Valid() && Stored(db) && NodesOK(nodes, t, w) && Closed(w) && OutsideOf(query.Repr, nodes, w)
      requires forall i | 0 <= i < |t| :: t[i].accountGroups == []
      requires scope == (set x | x in nodes) && UniqueIDs(nodes) && IndexedByID(nodes, nodeids)
      requires forall k | k in fks :: k in nodeids
      modifies query.Repr, scope`accountGroups
      ensures err == JoinsError(db, WhereJoin(KeyedJoin(old(query.Value())), AccountIn(fks)))
      ensures err.None? ==>
        && NodesOK(nodes, WithJoins(t, JoinNodes(db, WhereJoin(KeyedJoin(old(query.Value())), AccountIn(fks)))), u)
        && Closed(u)
      ensures forall a | a in u.accounts :: a in w.accounts || fresh(a)
      ensures forall j | j in u.joins :: j in w.joins || fresh(j)
      decreases query.Repr, 6
    {
      u := w;
      ghost var trees := JoinNodes(db, WhereJoin(KeyedJoin(query.Value()), AccountIn(fks)));
      var neighbors; ghost var v;
      neighbors, v := query.AllByAccount(db, fks, nodes, t, w);
      if neighbors.Failure? { return Some(neighbors.error), u; }
      u := Union(w, v);
      err := AttachAccountGroups(nodes, nodeids, neighbors.value, trees, scope, t, w, v);
    }

    static method IndexForGroups(nodes: seq<Account>, ghost batch: seq<AccountRow>, ghost t: seq<AccountTree>,
                                 ghost w: World)
      returns (edgeIDs: seq<int>, byID: map<int, Account>)
      requires NodesOK(nodes, t, w) && TreesOver(t, batch) && UniqueBy(AccountKey, batch)
      requires forall i | 0 <= i < |t| :: t[i].groups == []
      modifies (set x | x in nodes)`groups
      ensures NodesOK(nodes, t, w) && UniqueIDs(nodes) && IndexedByID(nodes, byID)
      ensures edgeIDs == IDs(batch) && forall k | k in edgeIDs :: k in byID
    {
      NodesAgree(nodes, t, w);
      UniqueRows(nodes, batch);
      ghost var had := ContentsOf(nodes);
      edgeIDs, byID := IndexGroups(nodes, set x | x in nodes);
      assert ContentsOf(nodes) == had;
      assert edgeIDs == IDs(batch);
    }

    static method LoadGroups(query: LeafQuery, nodes: seq<Account>, db: Snapshot,
                             ghost batch: seq<AccountRow>, ghost t: seq<AccountTree>, ghost w: World)
      returns (err: Option<Error>)
      requires Stored(db) && NodesOK(nodes, t, w) && TreesOver(t, batch) && UniqueBy(AccountKey, batch)
      requires forall i | 0 <= i < |t| :: t[i].groups == []
      modifies query, (set x | x in nodes)`groups
      ensures err == PrepareLeaf(old(query.Value()))
      ensures err.None? ==> NodesOK(nodes, StageGroups(db, Some(old(query.Value())), batch, t), w)
    {
      ghost var q := query.Value();
      var edgeIDs, byID := IndexForGroups(nodes, batch, t, w);
      assert query.Value() == q;
      err := query.PrepareQuery();
      if err.Some? { return; }
      PreparedStream(db, q, edgeIDs);
      err := FillGroups(query, nodes, db, edgeIDs, byID, GroupStream(db, q, edgeIDs), (set x | x in nodes), t, w);
    }

    static method FillGroups(query: LeafQuery, nodes: seq<Account>, db: Snapshot, edgeIDs: seq<int>,
                             byID: map<int, Account>,
                             ghost stream: seq<JoinRow>, ghost scope: set<Account>, ghost t: seq<AccountTree>,
                             ghost w: World)
      returns (err: Option<Error>)
      requires Stored(db) && NodesOK(nodes, t, w) && UniqueIDs(nodes) && IndexedByID(nodes, byID)
      requires forall i | 0 <= i < |t| :: t[i].groups == []
      requires scope == (set x | x in nodes) && forall k | k in edgeIDs :: k in byID
      requires stream == GroupStream(db, query.Value().(criteria := Plain(query.criteria)), edgeIDs)
      modifies scope`groups
      ensures err == None && NodesOK(nodes, WithGroups(t, stream), w)
    {
      var cols, raw := query.JoinedRows(db, edgeIDs);
      var nids, neighbors := StreamGroups(cols, raw, byID, stream);
      err := AttachGroups(nodes, byID, nids, neighbors, stream, scope, t, w);
    }

    static method LoadProxy(query: LeafQuery, nodes: seq<Account>, db: Snapshot,
                            ghost batch: seq<AccountRow>, ghost t: seq<AccountTree>, ghost w: World)
      returns (err: Option<Error>)
      requires Stored(db) && NodesOK(nodes, t, w) && TreesOver(t, batch)
      requires forall i | 0 <= i < |t| :: t[i].proxy == None
      modifies query, (set x | x in nodes)`proxy
      ensures err == if FirstSeen(ProxyKeys(batch)) == [] then None else PrepareLeaf(old(query.Value()))
      ensures err.None? ==> NodesOK(nodes, StageProxy(db, Some(old(query.Value())), batch, t), w)
    {
      NodesAgree(nodes, t, w);
      ghost var q, scope := query.Value(), set x | x in nodes;
      var keys := seq(|nodes|, i requires 0 <= i < |nodes| reads nodes => nodes[i].proxyID);
      assert keys == ProxyKeys(batch);
      var ids, nodeids := GroupByKey(nodes, keys);
      if |ids| == 0 {
        NoProxies(db, q, batch, t);
        return None;
      }
      var neighbors := query.AllByID(db.proxies, ids);
      if neighbors.Failure? { return Some(neighbors.error); }
      ghost var rows := Leaves(db.proxies, WhereLeaf(q, LeafIDIn(ids)));
      err := AttachProxy(nodes, keys, ids, nodeids, neighbors.value, rows, scope, t, w);
    }

  }

  /** A builder, and the builders it owns. */
  ghost function ReprOf(sub: AccountQuery?): set<object>
    reads sub
  {
    if sub == null then {} else {sub} + sub.Repr
  }

  /** A builder that is missing when the query it stands for is. */
  ghost predicate Denotes(sub: AccountQuery?, value: Option<AccountQ>)
    reads ReprOf(sub), sub
  {
    if sub == null then value == None else value.Some? && Denotation(sub) == value
  }

  ghost predicate JoinDenotes(sub: AccountGroupQuery?, value: Option<JoinQ>)
    reads JoinReprOf(sub), sub
  {
    if sub == null then value == None else value.Some? && JoinDenotation(sub) == value
  }

  ghost predicate Separate(a: set<object>, b: set<object>, c: set<object>, d: set<object>) {
    a !! b && a !! c && a !! d && b !! c && b !! d && c !! d
  }

  ghost function LeafSet(sub: LeafQuery?): set<LeafQuery> {
    if sub == null then {} else {sub}
  }

  ghost function JoinReprOf(sub: AccountGroupQuery?): set<object>
    reads sub
  {
    if sub == null then {} else {sub} + sub.Repr
  }

  /** The query that a well-formed builder stands for. */
  ghost function Denotation(sub: AccountQuery): Option<AccountQ>
    reads sub, sub.Repr
  {
    if sub.Valid() then Some(sub.Value()) else None
  }

  ghost function JoinDenotation(sub: AccountGroupQuery): Option<JoinQ>
    reads sub, sub.Repr
  {
    if sub.Valid() then Some(sub.Value()) else None
  }

  class AccountGroupQuery {
    var fields: seq<JoinColumn>
    var criteria: Criteria<JoinTableRow>
    var withAccount: AccountQuery?
    var withGroup: LeafQuery?

    ghost var Repr: set<object>

    ghost predicate Valid()
      reads this, Repr
      ensures Valid() ==> this in Repr
      decreases Repr
    {
      && this in Repr
      && (withGroup != null ==> withGroup in Repr)
      && (withAccount != null ==>
            && withAccount in Repr && withAccount.Repr <= Repr && this !in withAccount.Repr
            && withGroup !in withAccount.Repr
            && withAccount.Valid())
    }

    ghost function Value(): JoinQ
      requires Valid()
      reads this, Repr
      decreases Repr
    {
      JoinQ(fields, criteria, if withAccount == null then None else Some(withAccount.Value()), LeafValueOf(withGroup))
    }

    constructor (fields: seq<JoinColumn>, criteria: Criteria<JoinTableRow>, account: AccountQuery?, group: LeafQuery?)
      ensures this.fields == fields && this.criteria == criteria && withAccount == account && withGroup == group
      ensures Repr == {this} + LeafSet(group) + ReprOf(account)
    {
      this.fields, this.criteria, withAccount, withGroup := fields, criteria, account, group;
      Repr := {this} + LeafSet(group) + ReprOf(account);
    }

    method Clone() returns (clone: AccountGroupQuery)
      requires Valid()
      ensures clone.Valid() && fresh(clone.Repr) && clone.Value() == Value()
      decreases Repr, 1
    {
      ghost var q := Value();
      var group := LeafQuery.CloneOf(withGroup);
      var account := AccountQuery.CloneOf(withAccount, q.withAccount);
      clone := new AccountGroupQuery(fields, criteria, account, group);
    }

    static method CloneBeside(query: AccountGroupQuery?, ghost value: Option<JoinQ>, ghost a: AccountQuery?,
                              ghost aValue: Option<AccountQ>,
                              ghost b: AccountQuery?, ghost bValue: Option<AccountQ>)
      returns (clone: AccountGroupQuery?)
      requires JoinDenotes(query, value) && Denotes(a, aValue) && Denotes(b, bValue)
      ensures JoinDenotes(clone, value) && fresh(JoinReprOf(clone)) && JoinReprOf(clone) !! ReprOf(a) + ReprOf(b)
      ensures Denotes(a, aValue) && Denotes(b, bValue)
      decreases JoinReprOf(query), 6
    {
      clone := CloneOf(query, value);
    }

    static method CloneOf(query: AccountGroupQuery?, ghost value: Option<JoinQ>) returns (clone: AccountGroupQuery?)
      requires JoinDenotes(query, value)
      ensures JoinDenotes(clone, value) && fresh(JoinReprOf(clone))
      decreases JoinReprOf(query), 5
    {
      if query == null { return null; }
      clone := query.Clone();
    }

    method SetCriteria(c: Criteria<JoinTableRow>)
      requires Valid()
      modifies this`criteria
      ensures Valid() && criteria == c && Value() == old(Value()).(criteria := c)
    {
      criteria := c;
    }

    method Where(p: JoinTableRow -> bool)
      requires Valid()
      modifies this`criteria
      ensures Valid() && Value() == WhereJoin(old(Value()), p)
    {
      SetCriteria(Narrow(criteria, p));
    }

    method SelectKey()
      requires Valid()
      modifies this`fields
      ensures Valid() && Value() == KeyedJoin(old(Value()))
    {
      if |fields| > 0 { fields := AddColumnOnce(fields, AccountIDColumn); }
    }

    method PrepareQuery() returns (err: Option<Error>)
      requires Valid()
      modifies this`criteria
      ensures Valid() && err == Prepare(old(criteria).inters, fields, JOIN_COLUMNS)
      ensures Value() == old(Value()).(criteria := criteria)
      ensures err.None? ==> PrepareError(old(criteria).inters).None? && criteria == Prepared(old(criteria))
    {
      var e, prepared := Traverse(criteria);
      SetCriteria(prepared);
      if e.Some? { err := e; } else { err := Validate(fields, JOIN_COLUMNS); }
    }

    /** The table has no id column, so only the keys of the requested edges are added. */
    method QuerySpec() returns (cols: seq<JoinColumn>)
      ensures cols == JoinColumns(fields, withAccount != null, withGroup != null)
    {
      if |fields| == 0 { return JOIN_COLUMNS; }
      cols := [];
      for i := 0 to |fields|
        invariant cols == fields[..i]
      {
        cols := cols + [fields[i]];
      }
      if withAccount != null { cols := AddColumnOnce(cols, AccountIDColumn); }
      if withGroup != null { cols := AddColumnOnce(cols, GroupIDColumn); }
    }

    static method ScanNode(cols: seq<JoinColumn>, row: JoinTableRow, loaded: JoinLoaded)
      returns (node: AccountGroup, err: Option<Error>)
      ensures fresh(node) && err == None
      ensures node.Contents() == JoinFields(ProjectJoin(cols, row), loaded, null, null)
    {
      var values := AccountGroup.ScanValues(cols);
      for i := 0 to |cols|
        invariant forall j | 0 <= j < i :: values[j] == Fill(NewCell(JoinKind(cols[j])), JoinValue(row, cols[j]))
        invariant forall j | i <= j < |cols| :: values[j] == NewCell(JoinKind(cols[j]))
      {
        values[i] := Fill(values[i], JoinValue(row, cols[i]));
      }
      node := new AccountGroup(loaded);
      assert JoinScannedFrom(cols, row, values[..]);
      AssignJoinProjects(cols, row, values[..], node.Scan());
      err := node.AssignValues(cols, values[..]);
      assert cols[..|cols|] == cols;
    }

    static method ScanNodes(cols: seq<JoinColumn>, rows: seq<JoinTableRow>, loaded: JoinLoaded)
      returns (nodes: seq<AccountGroup>, err: Option<Error>)
      ensures err == None && |nodes| == |rows| && Distinct(nodes) && fresh(nodes)
      ensures forall i | 0 <= i < |rows| ::
        nodes[i].Contents() == JoinFields(ProjectJoin(cols, rows[i]), loaded, null, null)
    {
      nodes := [];
      for i := 0 to |rows|
        invariant |nodes| == i && Distinct(nodes) && fresh(nodes)
        invariant forall j | 0 <= j < i ::
          nodes[j].Contents() == JoinFields(ProjectJoin(cols, rows[j]), loaded, null, null)
      {
        var node;
        node, err := ScanNode(cols, rows[i], loaded);
        if err.Some? { return; }
        nodes := nodes + [node];
      }
      err := None;
    }

    method All(db: Snapshot) returns (r: Result<seq<AccountGroup>, Error>, ghost w: World)
      requires Valid() && Stored(db)
      modifies Repr
      ensures r.Failure? <==> JoinsError(db, old(Value())).Some?
      ensures r.Failure? ==> Some(r.error) == JoinsError(db, old(Value()))
      ensures r.Success? ==> LoadedJoins(r.value, JoinNodes(db, old(Value())), w)
      ensures fresh(w.accounts.Keys) && fresh(w.joins.Keys)
      decreases Repr, 3
    {
      ghost var q := Value();
      var err := PrepareQuery();
      if err.Some? { return Failure(err.value), EMPTY; }
      PreparedJoins(db, q);
      r, w := SqlAll(db);
    }

    method SqlAll(db: Snapshot) returns (r: Result<seq<AccountGroup>, Error>, ghost w: World)
      requires Valid() && Stored(db)
      modifies Repr
      ensures var q := old(Value()).(criteria := Plain(old(criteria)));
        var batch := ScannedJoins(db, q);
        && (r.Failure? <==> batch != [] && JoinEdgesError(db, q, batch).Some?)
        && (r.Failure? ==> Some(r.error) == JoinEdgesError(db, q, batch))
        && (r.Success? ==> LoadedJoins(r.value, JoinNodes(db, q), w))
      ensures fresh(w.accounts.Keys) && fresh(w.joins.Keys)
      decreases Repr, 2
    {
      w := EMPTY;
      ghost var q := Value().(criteria := Plain(criteria));
      ghost var batch := ScannedJoins(db, q);
      var nodes, err := FetchNodes(db, q);
      match err {
        case Some(e) => return Failure(e), w;
        case None =>
      }
      if |nodes| == 0 { return Success(nodes), w; }
      r, w := Finish(nodes, db, q, batch);
    }

    method FetchNodes(db: Snapshot, ghost q: JoinQ) returns (nodes: seq<AccountGroup>, err: Option<Error>)
      requires Valid() && q == Value().(criteria := Plain(criteria))
      ensures err == None && fresh(nodes)
      ensures JoinNodesOK(nodes, BareJoins(ScannedJoins(db, q), JoinLoadedOf(q)), EMPTY)
    {
      var cols := QuerySpec();
      var rows := SelectRows(Plain(criteria), db.accountGroups);
      nodes, err := ScanNodes(cols, rows, JoinLoaded(withAccount != null, withGroup != null));
    }

    /** Loads both edges of a batch that is not empty, and counts its nodes among the finished ones. */
    method Finish(nodes: seq<AccountGroup>, db: Snapshot, ghost q: JoinQ, ghost batch: seq<JoinTableRow>)
      returns (r: Result<seq<AccountGroup>, Error>, ghost w: World)
      requires Valid() && Stored(db) && q == Value().(criteria := q.criteria) && batch == ScannedJoins(db, q)
      requires JoinNodesOK(nodes, BareJoins(batch, JoinLoadedOf(q)), EMPTY)
      requires forall x | x in nodes :: x !in Repr
      requires batch != []
      modifies Repr, (set x | x in nodes)`account, (set x | x in nodes)`group
      ensures r.Failure? <==> JoinEdgesError(db, q, batch).Some?
      ensures r.Failure? ==> Some(r.error) == JoinEdgesError(db, q, batch)
      ensures r.Success? ==> r.value == nodes && LoadedJoins(nodes, JoinNodes(db, q), w)
      ensures fresh(w.accounts.Keys)
      ensures forall j | j in w.joins :: fresh(j) || j in nodes
      decreases Repr, 1
    {
      JoinStagesAreNodes(db, q);
      var err;
      ghost var t := BareJoins(batch, JoinLoadedOf(q));
      err, w := StepAccount(nodes, db, q, batch, t);
      if err.Some? { return Failure(err.value), w; }
      t := StageJoinAccount(db, q.withAccount, batch, t);
      err := StepGroup(nodes, db, q, batch, t, w);
      if err.Some? { return Failure(err.value), w; }
      CompleteJoinsIsClosed(nodes, JoinNodes(db, q), w);
      w := CompleteJoins(nodes, JoinNodes(db, q), w);
      r := Success(nodes);
    }

    // ----- loaders -----

    method StepAccount(nodes: seq<AccountGroup>, db: Snapshot, ghost q: JoinQ, ghost batch: seq<JoinTableRow>,
                       ghost t: seq<JoinTree>)
      returns (err: Option<Error>, ghost w: World)
      requires Valid() && Stored(db) && q == Value().(criteria := q.criteria)
      requires JoinNodesOK(nodes, t, EMPTY) && JoinTreesOver(t, batch) && batch != []
      requires forall x | x in nodes :: x !in Repr
      requires forall i | 0 <= i < |t| :: t[i].account == None
      modifies if withAccount == null then {} else withAccount.Repr, (set x | x in nodes)`account
      ensures err == JoinAccountError(db, q, batch)
      ensures err.None? ==> JoinNodesOK(nodes, StageJoinAccount(db, q.withAccount, batch, t), w) && Closed(w)
      ensures fresh(w.accounts.Keys) && fresh(w.joins.Keys)
      ensures q.withGroup == LeafValueOf(withGroup)
      decreases Repr, 0
    {
      if withAccount == null { return None, EMPTY; }
      err, w := LoadAccount(withAccount, nodes, db, batch, t);
    }

    method StepGroup(nodes: seq<AccountGroup>, db: Snapshot, ghost q: JoinQ, ghost batch: seq<JoinTableRow>,
                     ghost t: seq<JoinTree>, ghost w: World)
      returns (err: Option<Error>)
      requires Stored(db) && q.withGroup == LeafValueOf(withGroup)
      requires JoinNodesOK(nodes, t, w) && JoinTreesOver(t, batch) && batch != [] && Closed(w)
      requires forall i | 0 <= i < |t| :: t[i].group == None
      requires forall j | j in w.joins :: j !in nodes
      modifies if withGroup == null then {} else {withGroup}, (set x | x in nodes)`group
      ensures err == JoinGroupError(q)
      ensures err.None? ==> JoinNodesOK(nodes, StageJoinGroup(db, q.withGroup, batch, t), w) && Closed(w)
    {
      if withGroup == null { return None; }
      err := LoadGroup(withGroup, nodes, db, batch, t, w);
    }

    static method IndexAccounts(nodes: seq<AccountGroup>, ghost batch: seq<JoinTableRow>, ghost t: seq<JoinTree>,
                                ghost w: World)
      returns (ids: seq<int>, nodeids: map<int, seq<AccountGroup>>)
      requires JoinNodesOK(nodes, t, w) && JoinTreesOver(t, batch)
      ensures |nodes| == |batch| && Indexed(nodes, AccountKeys(batch), ids, nodeids)
    {
      JoinNodesAgree(nodes, t, w);
      var keys := seq(|nodes|, i requires 0 <= i < |nodes| reads nodes => Some(nodes[i].accountID));
      assert keys == AccountKeys(batch);
      ids, nodeids := GroupByKey(nodes, keys);
    }

    static method IndexGroups(nodes: seq<AccountGroup>, ghost batch: seq<JoinTableRow>, ghost t: seq<JoinTree>,
                              ghost w: World)
      returns (ids: seq<int>, nodeids: map<int, seq<AccountGroup>>)
      requires JoinNodesOK(nodes, t, w) && JoinTreesOver(t, batch)
      ensures |nodes| == |batch| && Indexed(nodes, GroupKeys(batch), ids, nodeids)
    {
      JoinNodesAgree(nodes, t, w);
      var keys := seq(|nodes|, i requires 0 <= i < |nodes| reads nodes => Some(nodes[i].groupID));
      assert keys == GroupKeys(batch);
      ids, nodeids := GroupByKey(nodes, keys);
    }

    static method LoadAccount(query: AccountQuery, nodes: seq<AccountGroup>, db: Snapshot,
                              ghost batch: seq<JoinTableRow>, ghost t: seq<JoinTree>)
      returns (err: Option<Error>, ghost w: World)
      requires query.Valid() && Stored(db) && JoinNodesOK(nodes, t, EMPTY) && JoinTreesOver(t, batch) && batch != []
      requires forall x | x in nodes :: x !in query.Repr
      requires forall i | 0 <= i < |t| :: t[i].account == None
      modifies query.Repr, (set x | x in nodes)`account
      ensures err == AccountsError(db, Queries.Where(old(query.Value()), IDIn(FirstSeen(AccountKeys(batch)))))
      ensures err.None? ==> JoinNodesOK(nodes, StageJoinAccount(db, Some(old(query.Value())), batch, t), w) && Closed(w)
      ensures fresh(w.accounts.Keys) && fresh(w.joins.Keys)
      decreases query.Repr, 7
    {
      w := EMPTY;
      var ids, nodeids := IndexAccounts(nodes, batch, t, EMPTY);
      SomeKey(AccountKeys(batch));
      if |ids| == 0 { return None, w; }
      err, w := FillAccount(query, nodes, db, AccountKeys(batch), ids, nodeids, (set x | x in nodes), t);
    }

    static method FillAccount(query: AccountQuery, nodes: seq<AccountGroup>, db: Snapshot, ghost keys: seq<Option<int>>,
                              ids: seq<int>, nodeids: map<int, seq<AccountGroup>>, ghost scope: set<AccountGroup>,
                              ghost t: seq<JoinTree>)
      returns (err: Option<Error>, ghost w: World)
      requires query.Valid() && Stored(db) && JoinNodesOK(nodes, t, EMPTY)
      requires forall x | x in nodes :: x !in query.Repr
      requires forall i | 0 <= i < |t| :: t[i].account == None
      requires scope == (set x | x in nodes) && |keys| == |nodes| && Indexed(nodes, keys, ids, nodeids)
      modifies query.Repr, scope`account
      ensures err == AccountsError(db, Queries.Where(old(query.Value()), IDIn(ids)))
      ensures err.None? ==>
        JoinNodesOK(nodes, WithAccounts(t, keys, Accounts(db, Queries.Where(old(query.Value()), IDIn(ids)))), w) &&
        Closed(w)
      ensures fresh(w.accounts.Keys) && fresh(w.joins.Keys)
      decreases query.Repr, 6
    {
      w := EMPTY;
      ghost var trees := Accounts(db, Queries.Where(query.Value(), IDIn(ids)));
      var neighbors; ghost var v;
      neighbors, v := query.AllByIDForJoins(db, ids, nodes, t);
      if neighbors.Failure? { return Some(neighbors.error), w; }
      w := Union(EMPTY, v);
      UnionEmpty(v);
      err := AttachJoinAccount(nodes, keys, ids, nodeids, neighbors.value, trees, scope, t, EMPTY, v);
    }

    static method LoadGroup(query: LeafQuery, nodes: seq<AccountGroup>, db: Snapshot,
                            ghost batch: seq<JoinTableRow>, ghost t: seq<JoinTree>, ghost w: World)
      returns (err: Option<Error>)
      requires Stored(db) && JoinNodesOK(nodes, t, w) && JoinTreesOver(t, batch) && batch != []
      requires forall i | 0 <= i < |t| :: t[i].group == None
      modifies query, (set x | x in nodes)`group
      ensures err == PrepareLeaf(old(query.Value()))
      ensures err.None? ==> JoinNodesOK(nodes, StageJoinGroup(db, Some(old(query.Value())), batch, t), w)
    {
      ghost var q := query.Value();
      var ids, nodeids := IndexGroups(nodes, batch, t, w);
      SomeKey(GroupKeys(batch));
      if |ids| == 0 { return None; }
      var neighbors := query.AllByID(db.groups, ids);
      if neighbors.Failure? { return Some(neighbors.error); }
      ghost var rows := Leaves(db.groups, WhereLeaf(q, LeafIDIn(ids)));
      err := AttachJoinGroup(nodes, GroupKeys(batch), ids, nodeids, neighbors.value, rows, (set x | x in nodes), t, w);
    }

    /** Runs the query while a batch of accounts is waiting for its results. */
    method AllBeside(db: Snapshot, ghost nodes: seq<Account>, ghost t: seq<AccountTree>, ghost w: World)
      returns (r: Result<seq<AccountGroup>, Error>, ghost v: World)
      requires Valid() && Stored(db)
      requires NodesOK(nodes, t, w) && Closed(w) && OutsideOf(Repr, nodes, w)
      modifies Repr
      ensures r.Failure? <==> JoinsError(db, old(Value())).Some?
      ensures r.Failure? ==> Some(r.error) == JoinsError(db, old(Value()))
      ensures r.Success? ==> LoadedJoins(r.value, JoinNodes(db, old(Value())), v)
      ensures NodesOK(nodes, t, w) && Closed(w)
      ensures Apart(w, v) && forall x | x in nodes :: x !in v.accounts
      ensures fresh(v.accounts.Keys) && fresh(v.joins.Keys)
      decreases Repr, 4
    {
      r, v := All(db);
    }

    /** The query narrowed to the join rows of a list of accounts, with their key among its columns. */
    method AllByAccount(db: Snapshot, fks: seq<int>, ghost nodes: seq<Account>, ghost t: seq<AccountTree>,
                        ghost w: World)
      returns (r: Result<seq<AccountGroup>, Error>, ghost v: World)
      requires Valid() && Stored(db)
      requires NodesOK(nodes, t, w) && Closed(w) && OutsideOf(Repr, nodes, w)
      modifies Repr
      ensures r.Failure? <==> JoinsError(db, WhereJoin(KeyedJoin(old(Value())), AccountIn(fks))).Some?
      ensures r.Failure? ==> Some(r.error) == JoinsError(db, WhereJoin(KeyedJoin(old(Value())), AccountIn(fks)))
      ensures r.Success? ==>
        var trees := JoinNodes(db, WhereJoin(KeyedJoin(old(Value())), AccountIn(fks)));
        LoadedJoins(r.value, trees, v) && forall i | 0 <= i < |trees| :: trees[i].row.accountID in fks
      ensures NodesOK(nodes, t, w) && Closed(w)
      ensures Apart(w, v) && forall x | x in nodes :: x !in v.accounts
      ensures fresh(v.accounts.Keys) && fresh(v.joins.Keys)
      decreases Repr, 5
    {
      SelectedJoins(db, Value(), fks);
      SelectKey();
      Where(AccountIn(fks));
      r, v := AllBeside(db, nodes, t, w);
    }
  }
}
