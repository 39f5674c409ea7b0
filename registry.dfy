/** The node registry both router versions keep: a dictionary from node id to
    the node's latest JSON, refreshed by walking a fetched node list and storing
    each (kept) node under its id. Nothing is ever removed. Also the walk every
    platform's `async_setup_entry` makes over the registry's nodes. */
module Registry {
  import opened Values
  import opened BaseClass

  /** Which fetched nodes a refresh stores: every node (filter None) or only
      those whose category is in the filter. */
  predicate Stored(n: Node, filter: Option<set<string>>) {
    filter.None? || n.category in filter.value
  }

  /** The registry after each stored fetched node, in fetch order, is written
      under its id, a later node replacing an earlier one. */
  function Merge(m: map<int, Node>, ns: seq<Node>, filter: Option<set<string>>): map<int, Node>
    decreases |ns|
  {
    if ns == [] then m
    else
      var prev := Merge(m, ns[..|ns| - 1], filter);
      var n := ns[|ns| - 1];
      if Stored(n, filter) then prev[n.id := n] else prev
  }

  /** The fetched node at position i is stored and carries id `id`. */
  predicate StoredWithId(ns: seq<Node>, filter: Option<set<string>>, id: int, i: int) {
    0 <= i < |ns| && Stored(ns[i], filter) && ns[i].id == id
  }

  /** Every entry is stored under its own node's id. */
  predicate KeyedById(m: map<int, Node>) {
    forall id | id in m :: m[id].id == id
  }

  /** A key is present after a refresh iff it was present before or some
      stored fetched node carries it: keys are never removed. */
  lemma {:induction false} MergeKeys(m: map<int, Node>, ns: seq<Node>, filter: Option<set<string>>, id: int)
    ensures id in Merge(m, ns, filter) <==> id in m || exists i :: StoredWithId(ns, filter, id, i)
    decreases |ns|
  {
    if ns != [] {
      var init := ns[..|ns| - 1];
      MergeKeys(m, init, filter, id);
      forall i | StoredWithId(init, filter, id, i) ensures StoredWithId(ns, filter, id, i) { }
      forall i | StoredWithId(ns, filter, id, i) && i < |ns| - 1 ensures StoredWithId(init, filter, id, i) { }
      if StoredWithId(ns, filter, id, |ns| - 1) {
        assert id in Merge(m, ns, filter);
      }
    }
  }

  /** An id that no stored fetched node carries keeps its old entry (or stays
      absent). */
  lemma {:induction false} MergeUntouched(m: map<int, Node>, ns: seq<Node>, filter: Option<set<string>>, id: int)
    requires forall i :: !StoredWithId(ns, filter, id, i)
    ensures id in Merge(m, ns, filter) <==> id in m
    ensures id in m ==> Merge(m, ns, filter)[id] == m[id]
    decreases |ns|
  {
    if ns != [] {
      var init := ns[..|ns| - 1];
      assert !StoredWithId(ns, filter, id, |ns| - 1);
      forall i ensures !StoredWithId(init, filter, id, i) {
        if StoredWithId(init, filter, id, i) {
          assert StoredWithId(ns, filter, id, i);
        }
      }
      MergeUntouched(m, init, filter, id);
    }
  }

  /** Among stored fetched nodes with the same id, the last one wins. */
  lemma {:induction false} MergeLastWins(m: map<int, Node>, ns: seq<Node>, filter: Option<set<string>>, i: int)
    requires 0 <= i < |ns| && Stored(ns[i], filter)
    requires forall j | i < j < |ns| :: !StoredWithId(ns, filter, ns[i].id, j)
    ensures ns[i].id in Merge(m, ns, filter) && Merge(m, ns, filter)[ns[i].id] == ns[i]
    decreases |ns|
  {
    var init := ns[..|ns| - 1];
    if i < |ns| - 1 {
      assert !StoredWithId(ns, filter, ns[i].id, |ns| - 1);
      forall j | i < j < |init| ensures !StoredWithId(init, filter, init[i].id, j) {
        assert !StoredWithId(ns, filter, ns[i].id, j);
      }
      MergeLastWins(m, init, filter, i);
    }
  }

  /** Every entry after a refresh is either the old entry or a stored fetched
      node with that id: a node of a filtered-out category never gets in. */
  lemma {:induction false} MergeOnlyStored(m: map<int, Node>, ns: seq<Node>, filter: Option<set<string>>, id: int)
    requires id in Merge(m, ns, filter)
    ensures || (id in m && Merge(m, ns, filter)[id] == m[id])
            || exists i :: StoredWithId(ns, filter, id, i) && Merge(m, ns, filter)[id] == ns[i]
    decreases |ns|
  {
    if ns != [] {
      var init := ns[..|ns| - 1];
      var n := ns[|ns| - 1];
      if Stored(n, filter) && n.id == id {
        assert StoredWithId(ns, filter, id, |ns| - 1);
      } else {
        MergeOnlyStored(m, init, filter, id);
        if !(id in m && Merge(m, init, filter)[id] == m[id]) {
          var i :| StoredWithId(init, filter, id, i) && Merge(m, init, filter)[id] == init[i];
          assert StoredWithId(ns, filter, id, i);
        }
      }
    }
  }

  /** A refresh keeps the registry keyed by node id. */
  lemma {:induction false} MergeKeyedById(m: map<int, Node>, ns: seq<Node>, filter: Option<set<string>>)
    requires KeyedById(m)
    ensures KeyedById(Merge(m, ns, filter))
    decreases |ns|
  {
    if ns != [] {
      MergeKeyedById(m, ns[..|ns| - 1], filter);
    }
  }

  // ---------------------------------------------------------------------
  // Iteration order: a Python dict iterates its keys in first-insertion
  // order, and assigning to an existing key keeps its place.

  /** The key order after the same walk as Merge: keys already present keep
      their place at the front. */
  function MergeOrder(m: map<int, Node>, order: seq<int>, ns: seq<Node>, filter: Option<set<string>>): (r: seq<int>)
    ensures |order| <= |r| && r[..|order|] == order
    decreases |ns|
  {
    if ns == [] then order
    else
      var init := ns[..|ns| - 1];
      var prev := MergeOrder(m, order, init, filter);
      var n := ns[|ns| - 1];
      if Stored(n, filter) && n.id !in Merge(m, init, filter) then prev + [n.id] else prev
  }

  /** The registry as the adapters see it: the dictionary and the order in
      which `items()` walks it. */
  datatype Snapshot = Snapshot(nodes: map<int, Node>, order: seq<int>) {
    /** Every entry sits under its node's id, and the order lists every key
        exactly once. */
    predicate Valid() {
      && KeyedById(nodes)
      && (forall i, j | 0 <= i < j < |order| :: order[i] != order[j])
      && (forall id | id in nodes :: id in order)
      && (forall i | 0 <= i < |order| :: order[i] in nodes)
    }

    /** `nodes.values()` in iteration order. */
    function Values(): (r: seq<Node>)
      requires Valid()
      ensures |r| == |order|
      ensures forall i | 0 <= i < |order| :: r[i] == nodes[order[i]]
    {
      seq(|order|, i requires 0 <= i < |order| => nodes[order[i]])
    }
  }

  /** A refresh keeps the registry keyed by id and its order a listing of
      the keys without repetition. */
  lemma {:induction false} MergeKeepsOrderValid(m: map<int, Node>, order: seq<int>, ns: seq<Node>, filter: Option<set<string>>)
    requires Snapshot(m, order).Valid()
    ensures Snapshot(Merge(m, ns, filter), MergeOrder(m, order, ns, filter)).Valid()
    decreases |ns|
  {
    MergeKeyedById(m, ns, filter);
    if ns != [] {
      var init := ns[..|ns| - 1];
      var n := ns[|ns| - 1];
      MergeKeepsOrderValid(m, order, init, filter);
      var prev := MergeOrder(m, order, init, filter);
      var prevMap := Merge(m, init, filter);
      if Stored(n, filter) && n.id !in prevMap {
        var o := prev + [n.id];
        forall id ensures id in Merge(m, ns, filter) <==> id in o {
          assert id in o <==> id in prev || id == n.id;
        }
      }
    }
  }

  // ---------------------------------------------------------------------
  // Platform setup: walk the registry's nodes (in the dictionary's order)
  // and collect the entities each node gives rise to.

  function Collect<T>(ns: seq<Node>, f: Node -> seq<T>): seq<T>
    decreases |ns|
  {
    if ns == [] then [] else Collect(ns[..|ns| - 1], f) + f(ns[|ns| - 1])
  }

  /** An entity is planned iff some node of the walk gives rise to it. */
  lemma {:induction false} CollectMembership<T>(ns: seq<Node>, f: Node -> seq<T>, x: T)
    ensures x in Collect(ns, f) <==> exists i :: 0 <= i < |ns| && x in f(ns[i])
    decreases |ns|
  {
    if ns != [] {
      var init := ns[..|ns| - 1];
      CollectMembership(init, f, x);
      if x in Collect(init, f) {
        var i :| 0 <= i < |init| && x in f(init[i]);
        assert x in f(ns[i]);
      }
      if x in f(ns[|ns| - 1]) {
        assert exists i :: 0 <= i < |ns| && x in f(ns[i]) by {
          assert x in f(ns[|ns| - 1]);
        }
      }
      if exists i :: 0 <= i < |ns| && x in f(ns[i]) {
        var i :| 0 <= i < |ns| && x in f(ns[i]);
        if i < |ns| - 1 {
          assert x in f(init[i]);
        }
      }
    }
  }

  /** The position of a node of the walk that gave rise to `x`. */
  lemma CollectIndex<T>(ns: seq<Node>, f: Node -> seq<T>, x: T) returns (k: nat)
    requires x in Collect(ns, f)
    ensures k < |ns| && x in f(ns[k])
  {
    CollectMembership(ns, f, x);
    k :| k < |ns| && x in f(ns[k]);
  }
}
