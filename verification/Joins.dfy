/** What the three loader shapes build: the key list of a many-to-one edge, the lookup by id, and
    the join stream of a many-to-many edge read as "first appearance" order. */
module Joins {
  import opened Wrappers
  import opened Relational
  import opened Schema

  /** A row of the many-to-many stream: the account on the other side of the join, and the group. */
  datatype JoinRow = JoinRow(accountID: int, group: LeafRow)

  /** The non-nil keys, each at its first position. */
  function FirstSeen(keys: seq<Option<int>>): (ids: seq<int>)
    ensures forall k :: k in ids <==> Some(k) in keys
    ensures forall i, j | 0 <= i < j < |ids| :: ids[i] != ids[j]
  {
    if keys == [] then []
    else
      var before := FirstSeen(keys[..|keys| - 1]);
      var key := keys[|keys| - 1];
      assert keys == keys[..|keys| - 1] + [key];
      if key.None? || key.value in before then before else before + [key.value]
  }

  /** The last position of an id, or -1. */
  function LastIndex(ids: seq<int>, k: int): (at: int)
    ensures -1 <= at < |ids|
    ensures 0 <= at ==> ids[at] == k && forall m | at < m < |ids| :: ids[m] != k
    ensures at < 0 ==> k !in ids
  {
    if ids == [] then -1
    else if ids[|ids| - 1] == k then |ids| - 1
    else
      assert ids == ids[..|ids| - 1] + [ids[|ids| - 1]];
      LastIndex(ids[..|ids| - 1], k)
  }

  function Map<A, B>(f: A -> B, items: seq<A>): seq<B> {
    seq(|items|, i requires 0 <= i < |items| => f(items[i]))
  }

  /** The last of the items that carries an id. */
  function FindLast<T>(items: seq<T>, id: T -> int, k: int): (found: Option<T>)
    ensures found.Some? ==> found.value in items && id(found.value) == k
    ensures found.None? ==> forall i | 0 <= i < |items| :: id(items[i]) != k
  {
    var ids := Map(id, items);
    var at := LastIndex(ids, k);
    assert forall i | 0 <= i < |items| :: ids[i] == id(items[i]);
    if at < 0 then None else Some(items[at])
  }

  /** The items that carry a key, in order. */
  function WithKey<T>(items: seq<T>, keys: seq<Option<int>>, k: int): seq<T>
    requires |items| == |keys|
  {
    if items == [] then []
    else
      WithKey(items[..|items| - 1], keys[..|keys| - 1], k) +
      if keys[|keys| - 1] == Some(k) then [items[|items| - 1]] else []
  }

  predicate Mentions(groups: seq<LeafRow>, id: int) {
    exists i | 0 <= i < |groups| :: groups[i].id == id
  }

  /** The groups of a stream, each in the row that mentions it first. */
  function Firsts(stream: seq<JoinRow>): seq<LeafRow> {
    if stream == [] then []
    else
      var before := Firsts(stream[..|stream| - 1]);
      var last := stream[|stream| - 1].group;
      if Mentions(before, last.id) then before else before + [last]
  }

  predicate Joined(stream: seq<JoinRow>, account: int, group: int) {
    exists i | 0 <= i < |stream| :: stream[i].accountID == account && stream[i].group.id == group
  }

  /** The groups that a stream joins to one account, in the order in which it first mentions them. */
  function GroupsFor(stream: seq<JoinRow>, account: int): seq<LeafRow> {
    Keep((g: LeafRow) => Joined(stream, account, g.id), Firsts(stream))
  }

  function GroupID(g: LeafRow): int { g.id }

  /** `at` gives the position of the first mention of every group in a list. */
  ghost predicate FirstMentionsAt(stream: seq<JoinRow>, groups: seq<LeafRow>, at: seq<nat>) {
    && |at| == |groups|
    && (forall i | 0 <= i < |at| :: at[i] < |stream| && stream[at[i]].group == groups[i])
    && (forall i, m | 0 <= i < |at| && 0 <= m < at[i] :: stream[m].group.id != groups[i].id)
    && (forall i, j | 0 <= i < j < |at| :: at[i] < at[j])
  }

  lemma {:induction false} FirstsMentions(stream: seq<JoinRow>, id: int)
    ensures Mentions(Firsts(stream), id) <==> exists m | 0 <= m < |stream| :: stream[m].group.id == id
  {
    if stream == [] {
    } else {
      var n := |stream| - 1;
      var init, last := stream[..n], stream[n].group;
      FirstsMentions(init, id);
      var before, all := Firsts(init), Firsts(stream);
      if Mentions(before, id) {
        var i :| 0 <= i < |before| && before[i].id == id;
        assert all[i].id == id;
        var m :| 0 <= m < |init| && init[m].group.id == id;
        assert stream[m].group.id == id;
      } else {
        assert forall m | 0 <= m < n :: init[m] == stream[m];
      }
      if !Mentions(before, last.id) { assert all[|before|] == last; }
    }
  }

  /** The list of first mentions has every group once, in order of first appearance, each in the
      row that mentions it first. */
  lemma {:induction false} FirstsOrder(stream: seq<JoinRow>) returns (at: seq<nat>)
    ensures FirstMentionsAt(stream, Firsts(stream), at)
  {
    if stream == [] {
      at := [];
    } else {
      var n := |stream| - 1;
      var init, last := stream[..n], stream[n].group;
      at := FirstsOrder(init);
      assert forall m | 0 <= m < n :: init[m] == stream[m];
      FirstsMentions(init, last.id);
      if !Mentions(Firsts(init), last.id) { at := at + [n]; }
    }
  }

  lemma FirstsUnique(stream: seq<JoinRow>)
    ensures UniqueBy(GroupID, Firsts(stream))
  {
    var at := FirstsOrder(stream);
    var groups := Firsts(stream);
    forall i, j | 0 <= i < j < |groups| ensures GroupID(groups[i]) != GroupID(groups[j]) {
      assert stream[at[i]].group == groups[i];
    }
  }

  /** The groups of an account are exactly the groups that the stream joins to it, each once even if
      rows repeat, in order of the first row of the stream that mentions them. */
  lemma GroupsForExactly(stream: seq<JoinRow>, account: int) returns (at: seq<nat>)
    ensures FirstMentionsAt(stream, GroupsFor(stream, account), at)
    ensures UniqueBy(GroupID, GroupsFor(stream, account))
    ensures forall id :: Mentions(GroupsFor(stream, account), id) <==> Joined(stream, account, id)
  {
    var firsts, joined := Firsts(stream), (g: LeafRow) => Joined(stream, account, g.id);
    var groups := GroupsFor(stream, account);
    var from := FirstsOrder(stream);
    var kept := KeepPositions(joined, firsts);
    at := seq(|kept|, i requires 0 <= i < |kept| => from[kept[i]]);
    FirstsUnique(stream);
    KeepUnique(GroupID, joined, firsts);
    forall id ensures Mentions(groups, id) <==> Joined(stream, account, id) {
      if Joined(stream, account, id) {
        FirstsMentions(stream, id);
        var m :| 0 <= m < |firsts| && firsts[m].id == id;
        KeepMember(joined, firsts, firsts[m]);
      }
      if Mentions(groups, id) {
        var m :| 0 <= m < |groups| && groups[m].id == id;
        KeepMember(joined, firsts, groups[m]);
      }
    }
  }
}
