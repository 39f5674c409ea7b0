/** The detectors of the older integration (binary_sensor.py at the
    repository root): the same flag-flipping poll as the current version,
    but reading the gateway directly, with no sentinel guard, and indexing
    the reply's "value" key, which raises KeyError when it is absent. Setup
    creates motion and door detectors only. */
module LegacyBinarySensor {
  import opened Values
  import opened BaseClass
  import opened Registry
  import opened BinarySensor
  import Gateway
  import Host

  /** The entities one node gives rise to: two independent category tests. */
  function LegacyEntitiesFor(n: Node): (r: seq<Planned>)
    ensures forall k :: Planned(k, n) in r <==> k != SensorCover && Qualifies(k, n)
    ensures forall p | p in r :: p.node == n
  {
    (if n.category == "pir" then [Planned(Pir, n)] else [])
    + (if n.category == "dws" then [Planned(Dws, n)] else [])
  }

  /** For every node the current setup creates what this one does, in the
      same order, and then at most the cover sensor. */
  lemma CurrentSetupExtendsLegacy(n: Node)
    ensures var legacy, cur := LegacyEntitiesFor(n), EntitiesFor(n);
      |legacy| <= |cur| && cur[..|legacy|] == legacy
      && forall p | p in cur[|legacy|..] :: p == Planned(SensorCover, n)
  {
  }

  /** async_setup_entry. */
  method AsyncSetupEntry(reg: Snapshot) returns (es: seq<Planned>)
    requires reg.Valid()
    ensures es == Collect(reg.Values(), LegacyEntitiesFor)
  {
    var ns := reg.Values();
    es := [];
    var i := 0;
    while i < |ns|
      invariant 0 <= i <= |ns|
      invariant es == Collect(ns[..i], LegacyEntitiesFor)
    {
      assert ns[..i + 1][..i] == ns[..i];
      var n := ns[i];
      if n.category == "pir" {
        es := es + [Planned(Pir, n)];
      }
      if n.category == "dws" {
        es := es + [Planned(Dws, n)];
      }
      i := i + 1;
    }
    assert ns[..|ns|] == ns;
  }

  /** Setup creates a motion or door detector for each registered node of
      that category, and nothing else. */
  lemma LegacySetupPlansIff(reg: Snapshot, kind: EntityKind, n: Node)
    requires reg.Valid()
    ensures Planned(kind, n) in Collect(reg.Values(), LegacyEntitiesFor) <==>
      n.id in reg.nodes && reg.nodes[n.id] == n && kind != SensorCover && Qualifies(kind, n)
  {
    var ns := reg.Values();
    CollectMembership(ns, LegacyEntitiesFor, Planned(kind, n));
    if n.id in reg.nodes && reg.nodes[n.id] == n && kind != SensorCover && Qualifies(kind, n) {
      var k :| 0 <= k < |reg.order| && reg.order[k] == n.id;
      assert Planned(kind, n) in LegacyEntitiesFor(ns[k]);
    }
    if Planned(kind, n) in Collect(ns, LegacyEntitiesFor) {
      var k :| 0 <= k < |ns| && Planned(kind, n) in LegacyEntitiesFor(ns[k]);
      assert ns[k] == n && reg.nodes[reg.order[k]] == n;
    }
  }

  /** FreeboxPir and FreeboxDws: two classes with the same body apart from
      the device class, written here as one class with two constructors. */
  class FreeboxDetector {
    const ident: Identity
    const name: string
    const commandTrigger: int
    const deviceClass: DeviceClass
    var detection: bool
    ghost var events: seq<Host.Event>

    function IsOn(): bool
      reads this
    {
      detection
    }

    constructor Pir(mac: string, node: Node)
      ensures ident == MakeIdentity(mac, node, None) && name == Strip(node.labelText)
      ensures commandTrigger == GetCommandId(node.typeEndpoints, SIGNAL, "trigger")
      ensures deviceClass == Motion
      ensures !IsOn() && events == [Host.TrackTimeInterval(1)]
    {
      ident := MakeIdentity(mac, node, None);
      name := Strip(node.labelText);
      commandTrigger := GetCommandId(node.typeEndpoints, SIGNAL, "trigger");
      deviceClass := Motion;
      detection := false;
      events := [Host.TrackTimeInterval(1)];
    }

    constructor Dws(mac: string, node: Node)
      ensures ident == MakeIdentity(mac, node, None) && name == Strip(node.labelText)
      ensures commandTrigger == GetCommandId(node.typeEndpoints, SIGNAL, "trigger")
      ensures deviceClass == Door
      ensures !IsOn() && events == [Host.TrackTimeInterval(1)]
    {
      ident := MakeIdentity(mac, node, None);
      name := Strip(node.labelText);
      commandTrigger := GetCommandId(node.typeEndpoints, SIGNAL, "trigger");
      deviceClass := Door;
      detection := false;
      events := [Host.TrackTimeInterval(1)];
    }

    /** async_update_pir: always one request, even for the sentinel id; a
        reply without "value" raises KeyError and changes nothing. */
    method AsyncUpdatePir(api: Gateway.HomeApi, reply: Option<Value>) returns (raised: Option<PyError>)
      modifies this, api
      ensures api.calls == old(api.calls) + [Gateway.GetValue(ident.id, commandTrigger)]
      ensures reply.None? ==>
        raised == Some(KeyError) && detection == old(detection) && events == old(events)
      ensures reply.Some? ==>
        && raised.None?
        && detection == PollDetection(old(detection), reply.value)
        && events == old(events) + if detection != old(detection) then [Host.WriteHaState] else []
    {
      var state := api.GetHomeEndpointValue(ident.id, commandTrigger, reply);
      if state.None? {
        return Some(KeyError);
      }
      var v := state.value;
      PollChangesIff(detection, v);
      if PyEq(VBool(detection), v) {
        detection := !Truthy(v);
        events := events + [Host.WriteHaState];
      }
      raised := None;
    }

    method WillRemove()
      modifies this
      ensures events == old(events) + [Host.Unsubscribe] && detection == old(detection)
    {
      events := events + [Host.Unsubscribe];
    }
  }

  /** With a reply that carries a value, the older poll and the current one
      agree on the new flag, except that the current one never asks the
      gateway about the sentinel id. */
  lemma LegacyPollAgrees(detection: bool, commandTrigger: int, v: Value)
    requires commandTrigger != VALUE_NOT_SET
    ensures PollDetection(detection, ReadResult(commandTrigger, Some(v))) == PollDetection(detection, v)
  {
  }
}
