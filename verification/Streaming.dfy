/** Many-to-many loading: join rows stream through hooked ScanValues and Assign into a map of sets,
    and the groups are then appended to the accounts of their set, in whatever order the set is
    ranged over. */
module Streaming {
  import opened Wrappers
  import opened Relational
  import opened Schema
  import opened Joins
  import opened Entities
  import opened Assign

  // ----- scanning leaf rows -----

  function LeafValue(row: LeafRow, c: string): Value {
    if c == "id" then Int(row.id) else if c in row.attrs then row.attrs[c] else Null
  }

  function LeafValues(columns: seq<string>, row: LeafRow): seq<Value> {
    seq(|columns|, i requires 0 <= i < |columns| => LeafValue(row, columns[i]))
  }

  /** The row that assigning the values column by column builds. */
  function LeafOf(columns: seq<string>, values: seq<Value>): LeafRow
    requires |columns| <= |values|
  {
    if columns == [] then LeafRow(0, map[])
    else
      var n := |columns| - 1;
      var before := LeafOf(columns[..n], values);
      if columns[n] == "id" then before.(id := if values[n].Int? then values[n].n else 0)
      else if values[n] == Null then before
      else before.(attrs := before.attrs[columns[n] := values[n]])
  }

  /** A stored row has no attribute called id, and an absent value stands for NULL. */
  ghost predicate WellFormedLeaf(row: LeafRow) {
    "id" !in row.attrs && forall c | c in row.attrs :: row.attrs[c] != Null
  }

  lemma {:induction false} LeafOfTail(columns: seq<string>, a: seq<Value>, b: seq<Value>)
    requires |columns| <= |a| && |columns| <= |b|
    requires forall i | 0 <= i < |columns| :: a[i] == b[i]
    ensures LeafOf(columns, a) == LeafOf(columns, b)
  {
    if columns == [] {
    } else {
      LeafOfTail(columns[..|columns| - 1], a, b);
    }
  }

  lemma ProjectLeafStep(columns: seq<string>, c: string, row: LeafRow)
    requires WellFormedLeaf(row)
    ensures ProjectLeaf(columns + [c], row) ==
            var before := ProjectLeaf(columns, row);
            if c == "id" then before.(id := row.id)
            else if c in row.attrs then before.(attrs := before.attrs[c := row.attrs[c]]) else before
  {
    var before, after := ProjectLeaf(columns, row), ProjectLeaf(columns + [c], row);
    assert after.attrs == if c in row.attrs then before.attrs[c := row.attrs[c]] else before.attrs;
  }

  lemma {:induction false} LeafOfProjects(columns: seq<string>, row: LeafRow)
    requires WellFormedLeaf(row)
    ensures LeafOf(columns, LeafValues(columns, row)) == ProjectLeaf(columns, row)
  {
    if columns == [] {
      assert ProjectLeaf(columns, row).attrs == map[];
    } else {
      var n := |columns| - 1;
      LeafOfTail(columns[..n], LeafValues(columns, row), LeafValues(columns[..n], row));
      LeafOfProjects(columns[..n], row);
      ProjectLeafStep(columns[..n], columns[n], row);
      assert columns[..n] + [columns[n]] == columns;
    }
  }

  // ----- streaming -----

  /** A join row as the driver returns it: the account id, then the columns of the group, of which
      the first is the id. */
  ghost predicate Encodes(columns: seq<string>, values: seq<Value>, row: JoinRow) {
    && |values| == 1 + |columns| && |columns| > 0
    && values[0] == Int(row.accountID) && values[1] == Int(row.group.id)
    && LeafOf(columns, values[1..]) == row.group
  }

  /** The accounts that a stream joins to a group. */
  ghost function JoinedAccounts(stream: seq<JoinRow>, byID: map<int, Account>, group: int): set<Account> {
    set a | a in byID && Joined(stream, a, group) :: byID[a]
  }

  lemma JoinedStep(stream: seq<JoinRow>, n: nat, a: int, g: int)
    requires n < |stream|
    ensures Joined(stream[..n + 1], a, g) <==>
            Joined(stream[..n], a, g) || (stream[n].accountID == a && stream[n].group.id == g)
  {
    var next, before := stream[..n + 1], stream[..n];
    assert forall i | 0 <= i < n :: next[i] == before[i];
    assert next[n] == stream[n];
    if Joined(before, a, g) {
      var i :| 0 <= i < |before| && before[i].accountID == a && before[i].group.id == g;
      assert next[i].accountID == a;
    }
  }

  lemma JoinedAccountsStep(stream: seq<JoinRow>, n: nat, byID: map<int, Account>, g: int)
    requires n < |stream| && stream[n].accountID in byID
    ensures JoinedAccounts(stream[..n + 1], byID, g) ==
            JoinedAccounts(stream[..n], byID, g) + if stream[n].group.id == g then {byID[stream[n].accountID]} else {}
  {
    forall a ensures Joined(stream[..n + 1], a, g) <==>
            Joined(stream[..n], a, g) || (stream[n].accountID == a && stream[n].group.id == g)
    {
      JoinedStep(stream, n, a, g);
    }
  }

  /** What the stream leaves behind: one object for every group, in order of first mention, and for
      every group the set of accounts joined to it. */
  ghost predicate Streamed(stream: seq<JoinRow>, byID: map<int, Account>, nids: map<int, set<Account>>,
                           neighbors: seq<Leaf>)
  {
    && LeavesAre(neighbors, Firsts(stream))
    && (forall g :: g in nids <==> Mentions(Firsts(stream), g))
    && (forall g | g in nids :: nids[g] == JoinedAccounts(stream, byID, g))
  }

  lemma StreamedAgain(stream: seq<JoinRow>, n: nat, byID: map<int, Account>, nids: map<int, set<Account>>,
                      neighbors: seq<Leaf>)
    requires n < |stream| && stream[n].accountID in byID
    requires Streamed(stream[..n], byID, nids, neighbors)
    requires stream[n].group.id in nids
    ensures
      var g := stream[n].group.id;
      Streamed(stream[..n + 1], byID, nids[g := nids[g] + {byID[stream[n].accountID]}], neighbors)
  {
    assert stream[..n + 1][..n] == stream[..n];
    forall g { JoinedAccountsStep(stream, n, byID, g); }
  }

  lemma UnmentionedUnjoined(stream: seq<JoinRow>, byID: map<int, Account>, g: int)
    requires !Mentions(Firsts(stream), g)
    ensures JoinedAccounts(stream, byID, g) == {}
  {
    FirstsMentions(stream, g);
  }

  lemma StreamedFirst(stream: seq<JoinRow>, n: nat, byID: map<int, Account>, nids: map<int, set<Account>>,
                      neighbors: seq<Leaf>, node: Leaf)
    requires n < |stream| && stream[n].accountID in byID
    requires Streamed(stream[..n], byID, nids, neighbors)
    requires stream[n].group.id !in nids && node.row == stream[n].group
    ensures Streamed(stream[..n + 1], byID, nids[stream[n].group.id := {byID[stream[n].accountID]}], neighbors + [node])
  {
    var g := stream[n].group.id;
    var before, after := Firsts(stream[..n]), Firsts(stream[..n + 1]);
    assert stream[..n + 1][..n] == stream[..n];
    assert after == before + [stream[n].group];
    forall h { JoinedAccountsStep(stream, n, byID, h); }
    UnmentionedUnjoined(stream[..n], byID, g);
    forall h ensures Mentions(after, h) <==> Mentions(before, h) || h == g {
      if Mentions(before, h) {
        var i :| 0 <= i < |before| && before[i].id == h;
        assert after[i].id == h;
      }
      assert after[|before|].id == g;
    }
  }

  /** Running the group query with both callbacks hooked: the first column feeds the join, the rest
      is passed on, and only the first row of a group creates an object. */
  method StreamGroups(columns: seq<string>, raw: seq<seq<Value>>, byID: map<int, Account>, ghost stream: seq<JoinRow>)
    returns (nids: map<int, set<Account>>, neighbors: seq<Leaf>)
    requires |raw| == |stream|
    requires forall i | 0 <= i < |raw| :: Encodes(columns, raw[i], stream[i]) && stream[i].accountID in byID
    ensures Streamed(stream, byID, nids, neighbors)
  {
    nids, neighbors := map[], [];
    for i := 0 to |raw|
      invariant Streamed(stream[..i], byID, nids, neighbors)
    {
      var values := raw[i];
      var outValue, inValue := values[0].n, values[1].n;
      if inValue !in nids {
        var node := new Leaf(LeafOf(columns, values[1..]));
        StreamedFirst(stream, i, byID, nids, neighbors, node);
        nids := nids[inValue := {byID[outValue]}];
        neighbors := neighbors + [node];
      } else {
        StreamedAgain(stream, i, byID, nids, neighbors);
        nids := nids[inValue := nids[inValue] + {byID[outValue]}];
      }
    }
    assert stream[..|stream|] == stream;
  }

  // ----- handing out -----

  method IndexGroups(nodes: seq<Account>, ghost scope: set<Account>)
    returns (edgeIDs: seq<int>, byID: map<int, Account>)
    requires scope == set x | x in nodes
    modifies scope`groups
    ensures edgeIDs == AccountIDs(nodes) && IndexedByID(nodes, byID)
    ensures forall x | x in scope :: x.groups == []
  {
    edgeIDs, byID := [], map[];
    for i := 0 to |nodes|
      invariant edgeIDs == AccountIDs(nodes)[..i]
      invariant forall k :: k in byID <==> k in edgeIDs
      invariant forall k | k in byID :: byID[k] == nodes[LastIndex(edgeIDs, k)]
      invariant forall j | 0 <= j < i :: nodes[j].groups == []
    {
      assert nodes[i] in nodes;
      assert (edgeIDs + [nodes[i].id])[..i] == edgeIDs;
      edgeIDs := edgeIDs + [nodes[i].id];
      byID := byID[nodes[i].id := nodes[i]];
      nodes[i].groups := [];
    }
    assert edgeIDs == AccountIDs(nodes);
  }

  /** Ranging over a set of accounts, in any order, appends the group once to each of them. */
  method AppendToEach(accounts: set<Account>, n: Leaf, ghost scope: set<Account>)
    requires accounts <= scope
    modifies scope`groups
    ensures forall x | x in scope :: x.groups == old(x.groups) + if x in accounts then [n] else []
  {
    var pending := accounts;
    while pending != {}
      invariant pending <= accounts
      invariant forall x | x in scope :: x.groups == old(x.groups) + if x in accounts - pending then [n] else []
      decreases pending
    {
      var kn :| kn in pending;
      kn.groups := kn.groups + [n];
      pending := pending - {kn};
    }
  }

  /** The neighbours whose set contains an account, in order. */
  ghost function Appended(nids: map<int, set<Account>>, neighbors: seq<Leaf>, x: Account): seq<Leaf>
    requires forall i | 0 <= i < |neighbors| :: neighbors[i].row.id in nids
  {
    if neighbors == [] then []
    else
      var last := neighbors[|neighbors| - 1];
      Appended(nids, neighbors[..|neighbors| - 1], x) + if x in nids[last.row.id] then [last] else []
  }

  /** Many-to-many: before the first group that the stream never mentioned, every group is appended
      to exactly the accounts of its set. */
  method AssignGroups(nids: map<int, set<Account>>, neighbors: seq<Leaf>, ghost scope: set<Account>)
    returns (err: Option<Error>)
    requires forall g | g in nids :: nids[g] <= scope
    modifies scope`groups
    ensures
      var ids := LeafIDs(neighbors);
      var stop := FirstUnknown(ids, nids.Keys);
      && err == (if stop < |ids| then Some(UnexpectedNode(ids[stop])) else None)
      && (forall i | 0 <= i < stop :: neighbors[..stop][i].row.id == ids[i])
      && (forall x | x in scope :: x.groups == old(x.groups) + Appended(nids, neighbors[..stop], x))
  {
    ghost var ids := LeafIDs(neighbors);
    ghost var stop := FirstUnknown(ids, nids.Keys);
    for m := 0 to |neighbors|
      invariant m <= stop
      invariant forall i | 0 <= i < m :: neighbors[..m][i].row.id == ids[i]
      invariant forall x | x in scope :: x.groups == old(x.groups) + Appended(nids, neighbors[..m], x)
    {
      var n := neighbors[m];
      assert n.row.id == ids[m];
      if n.row.id !in nids {
        assert stop == m;
        return Some(UnexpectedNode(n.row.id));
      }
      assert m < stop;
      assert neighbors[..m + 1][..m] == neighbors[..m];
      AppendToEach(nids[n.row.id], n, scope);
    }
    assert neighbors[..|neighbors|] == neighbors;
    return None;
  }
}
