/** The battery sensors (custom_components/freebox_home/sensor.py, and
    sensor.py at the repository root, whose logic is the same): a node gets
    one when its first "battery" signal carries a value, and the sensor's
    state is looked up in the registry snapshot on every query, with no
    request to the gateway. */
module Sensor {
  import opened Values
  import opened BaseClass
  import opened Registry

  const BATTERY: string := "battery"
  /** The host's PERCENTAGE unit. */
  const UNIT: string := "%"

  /** A battery entity: its identity, built with the battery endpoint as sub
      node, and its display name. */
  datatype BatterySensor = BatterySensor(ident: Identity, name: string)

  /** The node's first "battery" signal in show_endpoints carries a value
      other than None. */
  predicate HasBattery(n: Node) {
    var e := FindEndpoint(n.showEndpoints, SIGNAL, BATTERY);
    e.Some? && e.value.value.Some? && e.value.value.value != VNull
  }

  /** The entity built for a node, with its battery endpoint as sub node. */
  function SensorOf(mac: string, n: Node): (r: BatterySensor)
    requires HasBattery(n)
    ensures r.ident.id == n.id
  {
    var sub := FindEndpoint(n.showEndpoints, SIGNAL, BATTERY);
    BatterySensor(MakeIdentity(mac, n, sub), EntityName(n, sub))
  }

  function SensorsFor(mac: string, n: Node): seq<BatterySensor> {
    if HasBattery(n) then [SensorOf(mac, n)] else []
  }

  /** async_setup_entry: one battery entity per qualifying node, in the
      registry's order. */
  function Setup(mac: string, reg: Snapshot): seq<BatterySensor>
    requires reg.Valid()
  {
    Collect(reg.Values(), n => SensorsFor(mac, n))
  }

  /** Every entity the setup creates is the one built from a registered
      node with a battery value. */
  lemma SetupOnlyBattery(mac: string, reg: Snapshot, s: BatterySensor)
    requires reg.Valid() && s in Setup(mac, reg)
    ensures s.ident.id in reg.nodes && HasBattery(reg.nodes[s.ident.id])
    ensures s == SensorOf(mac, reg.nodes[s.ident.id])
  {
    var ns := reg.Values();
    var k := CollectIndex(ns, n => SensorsFor(mac, n), s);
    var n := ns[k];
    assert HasBattery(n) && s == SensorOf(mac, n);
    assert n == reg.nodes[reg.order[k]];
    assert s.ident.id == n.id == reg.order[k];
  }

  /** Every registered node with a battery value gets its entity. */
  lemma SetupEveryBattery(mac: string, reg: Snapshot, id: int)
    requires reg.Valid() && id in reg.nodes && HasBattery(reg.nodes[id])
    ensures SensorOf(mac, reg.nodes[id]) in Setup(mac, reg)
  {
    var ns := reg.Values();
    var f := n => SensorsFor(mac, n);
    var k :| 0 <= k < |reg.order| && reg.order[k] == id;
    assert SensorOf(mac, reg.nodes[id]) in f(ns[k]);
    CollectMembership(ns, f, SensorOf(mac, reg.nodes[id]));
  }

  /** Setup creates an entity for exactly the registered nodes with a
      battery value, and each entity is the one built from its node. */
  lemma SetupBatteryIff(mac: string, reg: Snapshot)
    requires reg.Valid()
    ensures forall s | s in Setup(mac, reg) ::
      s.ident.id in reg.nodes && HasBattery(reg.nodes[s.ident.id]) && s == SensorOf(mac, reg.nodes[s.ident.id])
    ensures forall id | id in reg.nodes && HasBattery(reg.nodes[id]) ::
      SensorOf(mac, reg.nodes[id]) in Setup(mac, reg)
  {
    forall s | s in Setup(mac, reg)
      ensures s.ident.id in reg.nodes && HasBattery(reg.nodes[s.ident.id]) && s == SensorOf(mac, reg.nodes[s.ident.id])
    {
      SetupOnlyBattery(mac, reg, s);
    }
    forall id | id in reg.nodes && HasBattery(reg.nodes[id])
      ensures SensorOf(mac, reg.nodes[id]) in Setup(mac, reg)
    {
      SetupEveryBattery(mac, reg, id);
    }
  }

  /** A battery entity's unique id is the node's with "-battery" appended,
      and its name is the battery endpoint's label. */
  lemma BatteryIdentity(mac: string, n: Node)
    requires HasBattery(n)
    ensures SensorOf(mac, n).ident.uniqueId == BaseUniqueId(mac, n.id) + "-" + BATTERY
    ensures SensorOf(mac, n).name == Strip(FindEndpoint(n.showEndpoints, SIGNAL, BATTERY).value.labelText)
  {
    var sub := FindEndpoint(n.showEndpoints, SIGNAL, BATTERY);
    var i := FirstMatchIndex(n.showEndpoints, SIGNAL, BATTERY).value;
    assert sub.value == n.showEndpoints[i];
    assert Strip(sub.value.name) == BATTERY by {
      StripNoSpace(BATTERY);
    }
    var uid := MakeIdentity(mac, n, sub).uniqueId;
    var base := BaseUniqueId(mac, n.id);
    assert StartsWith(uid, base) && uid[|base|..] == "-" + BATTERY;
    assert uid == uid[..|base|] + uid[|base|..];
  }

  /** The `state` property: a KeyError once the node has left the registry,
      otherwise the value of the node's first battery signal in the current
      snapshot, VALUE_NOT_SET when there is none or it has no value. */
  function State(s: BatterySensor, reg: Snapshot): (r: Outcome<Value>)
    ensures s.ident.id !in reg.nodes ==> r == Raised(KeyError)
    ensures s.ident.id in reg.nodes ==>
      var eps := reg.nodes[s.ident.id].showEndpoints;
      && (NoMatch(eps, SIGNAL, BATTERY) ==> r == Ok(NotSet))
      && (forall i | IsFirstMatch(eps, SIGNAL, BATTERY, i) :: r == Ok(eps[i].value.GetOr(NotSet)))
  {
    if s.ident.id !in reg.nodes then Raised(KeyError)
    else Ok(GetNodeValue(reg.nodes[s.ident.id].showEndpoints, SIGNAL, BATTERY))
  }

  /** Right after setup, every entity reports the non-None battery value that
      made the node qualify. */
  lemma SetupStateIsBattery(mac: string, reg: Snapshot, id: int)
    requires reg.Valid() && id in reg.nodes && HasBattery(reg.nodes[id])
    ensures var e := FindEndpoint(reg.nodes[id].showEndpoints, SIGNAL, BATTERY).value;
      State(SensorOf(mac, reg.nodes[id]), reg) == Ok(e.value.value) && e.value.value != VNull
  {
    var eps := reg.nodes[id].showEndpoints;
    var i := FirstMatchIndex(eps, SIGNAL, BATTERY).value;
    assert FindEndpoint(eps, SIGNAL, BATTERY).value == eps[i];
  }

  /** Once the node's battery signal is gone from the snapshot, the state is
      the sentinel. */
  lemma StateNotSetWithoutBattery(s: BatterySensor, reg: Snapshot)
    requires s.ident.id in reg.nodes
    requires forall j | 0 <= j < |reg.nodes[s.ident.id].showEndpoints| ::
      !(reg.nodes[s.ident.id].showEndpoints[j].epType == SIGNAL
        && reg.nodes[s.ident.id].showEndpoints[j].name == BATTERY)
    ensures State(s, reg) == Ok(VInt(VALUE_NOT_SET))
  {
  }
}
