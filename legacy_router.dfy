/** The router of the older integration (router.py at the repository root):
    `update_nodes` stores every fetched node under its id, with no category
    filter, and raises a flag when some fetched id was not yet known; the flag
    makes it dispatch the per-host "device new" signal. */
module LegacyRouter {
  import opened Values
  import opened BaseClass
  import opened Registry
  import Gateway
  import Host
  import Router

  /** The `signal_device_new` property. */
  function SignalDeviceNew(host: string): (r: string)
    ensures StartsWith(r, DOMAIN + "-")
    ensures r[|DOMAIN| + 1..] == host + "-device-new"
  {
    DOMAIN + "-" + host + "-device-new"
  }

  /** Two routers for different hosts dispatch on different signals. */
  lemma SignalDeviceNewInjective(a: string, b: string)
    requires SignalDeviceNew(a) == SignalDeviceNew(b)
    ensures a == b
  {
    var ra, rb := SignalDeviceNew(a), SignalDeviceNew(b);
    assert a == ra[|DOMAIN| + 1..][..|a|];
    assert b == rb[|DOMAIN| + 1..][..|b|];
  }

  /** Some fetched node carries an id the registry does not hold. */
  predicate HasUnknownId(known: map<int, Node>, ns: seq<Node>) {
    exists i :: 0 <= i < |ns| && ns[i].id !in known
  }

  class FreeboxRouter {
    const host: string
    const port: Value
    /** `self.nodes`, with `order` the order in which the dict iterates its keys. */
    var nodes: map<int, Node>
    var order: seq<int>
    ghost var events: seq<Host.Event>

    predicate Valid()
      reads this
    {
      Snapshot(nodes, order).Valid()
    }

    constructor (host: string, port: Value)
      ensures this.host == host && this.port == port
      ensures nodes == map[] && order == [] && Valid() && events == []
    {
      this.host := host;
      this.port := port;
      nodes := map[];
      order := [];
      events := [];
    }

    /** update_nodes: the registry becomes the unfiltered merge of the fetch,
        and the device-new signal is dispatched exactly when some fetched id
        was unknown before the walk. The fetch is not guarded: its error
        propagates before the registry is touched or anything is sent. */
    method UpdateNodes(api: Gateway.HomeApi, fetch: Router.Fetch) returns (newDevice: bool, raised: Option<PyError>)
      requires Valid()
      modifies this, api
      ensures Valid()
      ensures api.calls == old(api.calls) + [Gateway.GetNodes]
      ensures fetch.FetchRaised? ==>
        && raised == Some(fetch.error) && !newDevice
        && nodes == old(nodes) && order == old(order) && events == old(events)
      ensures fetch.Fetched? ==>
        && raised.None?
        && nodes == Merge(old(nodes), fetch.nodes, None)
        && order == MergeOrder(old(nodes), old(order), fetch.nodes, None)
        && (newDevice <==> HasUnknownId(old(nodes), fetch.nodes))
        && events == old(events) + if newDevice then [Host.DispatcherSend(SignalDeviceNew(host))] else []
    {
      api.GetHomeNodes();
      if fetch.FetchRaised? {
        return false, Some(fetch.error);
      }
      var fetched := fetch.nodes;
      newDevice, raised := false, None;
      var i := 0;
      while i < |fetched|
        invariant 0 <= i <= |fetched|
        invariant nodes == Merge(old(nodes), fetched[..i], None)
        invariant order == MergeOrder(old(nodes), old(order), fetched[..i], None)
        invariant newDevice <==> HasUnknownId(old(nodes), fetched[..i])
        invariant events == old(events)
        invariant api.calls == old(api.calls) + [Gateway.GetNodes]
      {
        var n := fetched[i];
        UpdateStep(old(nodes), old(order), fetched, i);
        if n.id !in nodes {
          newDevice := true;
          order := order + [n.id];
        }
        nodes := nodes[n.id := n];
        i := i + 1;
      }
      assert fetched[..|fetched|] == fetched;
      MergeKeepsOrderValid(old(nodes), old(order), fetched, None);
      if newDevice {
        events := events + [Host.DispatcherSend(SignalDeviceNew(host))];
      }
    }

    /** update_all only delegates to update_nodes, letting its error out. */
    method UpdateAll(api: Gateway.HomeApi, fetch: Router.Fetch) returns (raised: Option<PyError>)
      requires Valid()
      modifies this, api
      ensures Valid()
      ensures api.calls == old(api.calls) + [Gateway.GetNodes]
      ensures fetch.FetchRaised? ==>
        raised == Some(fetch.error) && nodes == old(nodes) && order == old(order) && events == old(events)
      ensures fetch.Fetched? ==>
        && raised.None?
        && nodes == Merge(old(nodes), fetch.nodes, None)
        && order == MergeOrder(old(nodes), old(order), fetch.nodes, None)
        && events == old(events) +
          if HasUnknownId(old(nodes), fetch.nodes) then [Host.DispatcherSend(SignalDeviceNew(host))] else []
    {
      var _, r := UpdateNodes(api, fetch);
      raised := r;
    }
  }

  /** One iteration of the update_nodes loop, on the specification side. */
  lemma UpdateStep(m: map<int, Node>, order: seq<int>, ns: seq<Node>, i: int)
    requires 0 <= i < |ns|
    ensures Merge(m, ns[..i + 1], None) == Merge(m, ns[..i], None)[ns[i].id := ns[i]]
    ensures MergeOrder(m, order, ns[..i + 1], None) ==
      MergeOrder(m, order, ns[..i], None) + if ns[i].id !in Merge(m, ns[..i], None) then [ns[i].id] else []
    ensures HasUnknownId(m, ns[..i + 1]) <==> HasUnknownId(m, ns[..i]) || ns[i].id !in m
    ensures !HasUnknownId(m, ns[..i]) ==> (ns[i].id in Merge(m, ns[..i], None) <==> ns[i].id in m)
    ensures ns[i].id !in Merge(m, ns[..i], None) ==> ns[i].id !in m
  {
    assert ns[..i + 1][..i] == ns[..i];
    MergeKeys(m, ns[..i], None, ns[i].id);
    if !HasUnknownId(m, ns[..i]) {
      assert forall j | 0 <= j < i :: ns[..i][j].id in m;
    }
  }

  /** Without a filter every fetched node ends up in the registry, the last
      one of an id winning. */
  lemma UnfilteredStoresLast(m: map<int, Node>, ns: seq<Node>, i: int)
    requires 0 <= i < |ns|
    requires forall j | i < j < |ns| :: ns[j].id != ns[i].id
    ensures ns[i].id in Merge(m, ns, None) && Merge(m, ns, None)[ns[i].id] == ns[i]
  {
    forall j | i < j < |ns| ensures !StoredWithId(ns, None, ns[i].id, j) { }
    MergeLastWins(m, ns, None, i);
  }

  /** A refresh that brings no unknown id keeps the registry's key set. */
  lemma NoNewDeviceSameKeys(m: map<int, Node>, ns: seq<Node>)
    requires !HasUnknownId(m, ns)
    ensures Merge(m, ns, None).Keys == m.Keys
  {
    forall id ensures id in Merge(m, ns, None) <==> id in m {
      MergeKeys(m, ns, None, id);
    }
  }
}
