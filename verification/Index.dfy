/** The hash indexes that the loaders build over a batch of nodes. */
module Index {
  import opened Wrappers
  import opened Joins

  lemma WithKeyStep<T>(items: seq<T>, keys: seq<Option<int>>, n: nat, k: int)
    requires |items| == |keys| && n < |items|
    ensures WithKey(items[..n + 1], keys[..n + 1], k) ==
            WithKey(items[..n], keys[..n], k) + if keys[n] == Some(k) then [items[n]] else []
  {
    assert items[..n + 1][..n] == items[..n] && keys[..n + 1][..n] == keys[..n];
  }

  lemma {:induction false} WithKeyNone<T>(items: seq<T>, keys: seq<Option<int>>, k: int)
    requires |items| == |keys| && Some(k) !in keys
    ensures WithKey(items, keys, k) == []
  {
    if items == [] {
    } else {
      WithKeyNone(items[..|items| - 1], keys[..|keys| - 1], k);
    }
  }

  /** The keys to ask for, each once and in the order of their first use, and for every key the
      nodes that carry it, in order. */
  ghost predicate Indexed<N>(nodes: seq<N>, keys: seq<Option<int>>, ids: seq<int>, nodeids: map<int, seq<N>>)
    requires |nodes| == |keys|
  {
    && ids == FirstSeen(keys)
    && (forall k :: k in nodeids <==> k in ids)
    && forall k | k in nodeids :: nodeids[k] == WithKey(nodes, keys, k)
  }

  lemma IndexedSkip<N>(nodes: seq<N>, keys: seq<Option<int>>, n: nat, ids: seq<int>, nodeids: map<int, seq<N>>)
    requires |nodes| == |keys| && n < |nodes| && keys[n] == None
    requires Indexed(nodes[..n], keys[..n], ids, nodeids)
    ensures Indexed(nodes[..n + 1], keys[..n + 1], ids, nodeids)
  {
    assert keys[..n + 1][..n] == keys[..n];
    forall k | k in nodeids ensures nodeids[k] == WithKey(nodes[..n + 1], keys[..n + 1], k) {
      WithKeyStep(nodes, keys, n, k);
    }
  }

  lemma IndexedAdd<N>(nodes: seq<N>, keys: seq<Option<int>>, n: nat, ids: seq<int>, nodeids: map<int, seq<N>>)
    requires |nodes| == |keys| && n < |nodes| && keys[n].Some?
    requires Indexed(nodes[..n], keys[..n], ids, nodeids)
    ensures
      var fk := keys[n].value;
      var list := (if fk in nodeids then nodeids[fk] else []) + [nodes[n]];
      Indexed(nodes[..n + 1], keys[..n + 1], if fk in nodeids then ids else ids + [fk], nodeids[fk := list])
  {
    var fk := keys[n].value;
    var list := (if fk in nodeids then nodeids[fk] else []) + [nodes[n]];
    var added := nodeids[fk := list];
    assert keys[..n + 1][..n] == keys[..n];
    if fk !in nodeids {
      WithKeyNone(nodes[..n], keys[..n], fk);
    }
    forall k | k in added ensures added[k] == WithKey(nodes[..n + 1], keys[..n + 1], k) {
      WithKeyStep(nodes, keys, n, k);
    }
  }

  /** Groups nodes by a nullable foreign key. */
  method GroupByKey<N>(nodes: seq<N>, keys: seq<Option<int>>)
    returns (ids: seq<int>, nodeids: map<int, seq<N>>)
    requires |nodes| == |keys|
    ensures Indexed(nodes, keys, ids, nodeids)
  {
    ids, nodeids := [], map[];
    for i := 0 to |nodes|
      invariant Indexed(nodes[..i], keys[..i], ids, nodeids)
    {
      if keys[i].None? {
        IndexedSkip(nodes, keys, i, ids, nodeids);
        continue;
      }
      IndexedAdd(nodes, keys, i, ids, nodeids);
      var fk := keys[i].value;
      if fk !in nodeids {
        ids := ids + [fk];
      }
      nodeids := nodeids[fk := (if fk in nodeids then nodeids[fk] else []) + [nodes[i]]];
    }
    assert nodes[..|nodes|] == nodes && keys[..|keys|] == keys;
  }

  lemma {:induction false} WithKeyMember<T>(items: seq<T>, keys: seq<Option<int>>, k: int, i: nat)
    requires |items| == |keys| && i < |items| && keys[i] == Some(k)
    ensures items[i] in WithKey(items, keys, k)
  {
    if i < |items| - 1 {
      WithKeyMember(items[..|items| - 1], keys[..|keys| - 1], k, i);
    }
  }

  lemma {:induction false} WithKeySound<T>(items: seq<T>, keys: seq<Option<int>>, k: int, x: T)
    requires |items| == |keys| && x in WithKey(items, keys, k)
    ensures exists i | 0 <= i < |items| :: items[i] == x && keys[i] == Some(k)
  {
    var n := |items| - 1;
    if x in WithKey(items[..n], keys[..n], k) {
      WithKeySound(items[..n], keys[..n], k, x);
      var i :| 0 <= i < n && items[..n][i] == x && keys[..n][i] == Some(k);
      assert items[i] == x && keys[i] == Some(k);
    }
  }

  /** Every node with a key is in the list of its key, and in no other list: the lists partition
      the nodes whose key is not nil. */
  lemma WithKeyPartitions<T>(items: seq<T>, keys: seq<Option<int>>, i: nat, k: int)
    requires |items| == |keys| && i < |items|
    requires forall x, y | 0 <= x < y < |items| :: items[x] != items[y]
    ensures items[i] in WithKey(items, keys, k) <==> keys[i] == Some(k)
  {
    if keys[i] == Some(k) {
      WithKeyMember(items, keys, k, i);
    } else if items[i] in WithKey(items, keys, k) {
      WithKeySound(items, keys, k, items[i]);
    }
  }

  /** Picking by key commutes with replacing every item by a related one. */
  lemma {:induction false} WithKeyRelated<A, B>(xs: seq<A>, ys: seq<B>, keys: seq<Option<int>>, k: int)
    returns (at: seq<nat>)
    requires |xs| == |ys| == |keys|
    ensures |at| == |WithKey(xs, keys, k)| == |WithKey(ys, keys, k)|
    ensures forall i | 0 <= i < |at| ::
      at[i] < |xs| && WithKey(xs, keys, k)[i] == xs[at[i]] && WithKey(ys, keys, k)[i] == ys[at[i]]
  {
    if xs == [] {
      at := [];
    } else {
      var n := |xs| - 1;
      at := WithKeyRelated(xs[..n], ys[..n], keys[..n], k);
      if keys[n] == Some(k) { at := at + [n]; }
    }
  }
}
