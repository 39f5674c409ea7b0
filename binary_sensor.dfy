/** The binary detectors (custom_components/freebox_home/binary_sensor.py):
    motion (pir) and door (dws) detectors that poll their trigger signal and
    flip a cached detection flag, a safety sensor that copies the read value
    of a node's plastic-cover signal, and the platform setup that decides
    which of them each registry node gives rise to. */
module BinarySensor {
  import opened Values
  import opened BaseClass
  import opened Registry
  import Gateway
  import Host

  datatype DeviceClass = Motion | Door | Safety

  datatype EntityKind = Pir | Dws | SensorCover

  /** An entity the setup creates, with the node it is created from. */
  datatype Planned = Planned(kind: EntityKind, node: Node)

  // ---------------------------------------------------------------------
  // Polling rule shared by both detector versions

  /** The cached flag after one poll: when the flag equals the read (in
      Python's sense, so True == 1), it becomes `not read`; otherwise it
      stays. */
  function PollDetection(detection: bool, read: Value): bool {
    if PyEq(VBool(detection), read) then !Truthy(read) else detection
  }

  /** A read that Python compares equal to a bool: True, False, 1 or 0. */
  predicate IsBinaryRead(v: Value) {
    v == VBool(true) || v == VBool(false) || v == VInt(1) || v == VInt(0)
  }

  /** After any binary read the flag is its negation, whatever it was
      before: the flag is an inversion of the last read, not a debounce. */
  lemma PollAfterBinaryRead(detection: bool, v: Value)
    requires IsBinaryRead(v)
    ensures PollDetection(detection, v) == !Truthy(v)
  {
    PyEqBool(detection, v);
    if !PyEq(VBool(detection), v) {
      assert Truthy(v) != detection;
    }
  }

  /** The flag changes exactly when it equalled the read; this is also when
      the entity writes its state. */
  lemma PollChangesIff(detection: bool, v: Value)
    ensures PollDetection(detection, v) != detection <==> PyEq(VBool(detection), v)
  {
    PyEqBool(detection, v);
  }

  /** A read that equals neither bool (the sentinel of a node with no trigger
      signal, a string, None) leaves the flag alone. */
  lemma PollNonBinaryKeeps(detection: bool, v: Value)
    requires !IsBinaryRead(v)
    ensures PollDetection(detection, v) == detection
    ensures PollDetection(detection, NotSet) == detection
  {
    PyEqBool(detection, v);
    PyEqBool(detection, NotSet);
  }

  /** Reading the same binary value twice: the second poll neither changes
      the flag nor writes the state. */
  lemma PollRepeatQuiet(detection: bool, v: Value)
    requires IsBinaryRead(v)
    ensures var d1 := PollDetection(detection, v);
      !PyEq(VBool(d1), v) && PollDetection(d1, v) == d1
  {
    PollAfterBinaryRead(detection, v);
    PyEqBool(PollDetection(detection, v), v);
  }

  // ---------------------------------------------------------------------
  // Platform setup

  /** The node's first "cover" signal in show_endpoints carries a value other
      than None. */
  predicate HasCoverSignal(n: Node) {
    var e := FindEndpoint(n.showEndpoints, SIGNAL, "cover");
    e.Some? && e.value.value.Some? && e.value.value.value != VNull
  }

  /** Which entity kinds a node qualifies for, stated independently of the
      order in which the setup appends them. */
  predicate Qualifies(kind: EntityKind, n: Node) {
    match kind
    case Pir => n.category == "pir"
    case Dws => n.category == "dws"
    case SensorCover => HasCoverSignal(n)
  }

  /** The entities one node gives rise to: a Pir or a Dws by category, then,
      independently, a cover sensor. */
  function EntitiesFor(n: Node): (r: seq<Planned>)
    ensures forall k :: Planned(k, n) in r <==> Qualifies(k, n)
    ensures forall p | p in r :: p.node == n
  {
    (if n.category == "pir" then [Planned(Pir, n)]
     else if n.category == "dws" then [Planned(Dws, n)]
     else [])
    + (if HasCoverSignal(n) then [Planned(SensorCover, n)] else [])
  }

  /** async_setup_entry: walk the registry's nodes and collect the entities. */
  method AsyncSetupEntry(reg: Snapshot) returns (es: seq<Planned>)
    requires reg.Valid()
    ensures es == Collect(reg.Values(), EntitiesFor)
  {
    var ns := reg.Values();
    es := [];
    var i := 0;
    while i < |ns|
      invariant 0 <= i <= |ns|
      invariant es == Collect(ns[..i], EntitiesFor)
    {
      assert ns[..i + 1][..i] == ns[..i];
      es := es + EntitiesFor(ns[i]);
      i := i + 1;
    }
    assert ns[..|ns|] == ns;
  }

  /** The setup creates an entity of a kind for a node exactly when the node
      is in the registry and qualifies for that kind. */
  lemma SetupPlansIff(reg: Snapshot, kind: EntityKind, n: Node)
    requires reg.Valid()
    ensures Planned(kind, n) in Collect(reg.Values(), EntitiesFor) <==>
      n.id in reg.nodes && reg.nodes[n.id] == n && Qualifies(kind, n)
  {
    var ns := reg.Values();
    CollectMembership(ns, EntitiesFor, Planned(kind, n));
    if n.id in reg.nodes && reg.nodes[n.id] == n && Qualifies(kind, n) {
      var k :| 0 <= k < |reg.order| && reg.order[k] == n.id;
      assert Planned(kind, n) in EntitiesFor(ns[k]);
    }
    if Planned(kind, n) in Collect(ns, EntitiesFor) {
      var k :| 0 <= k < |ns| && Planned(kind, n) in EntitiesFor(ns[k]);
      assert ns[k] == n && reg.nodes[reg.order[k]] == n;
    }
  }

  /** A node never yields both a motion and a door detector. */
  lemma SetupPirDwsExclusive(n: Node)
    ensures !(Planned(Pir, n) in EntitiesFor(n) && Planned(Dws, n) in EntitiesFor(n))
  {
  }

  // ---------------------------------------------------------------------
  // Detectors

  /** FreeboxPir, and FreeboxDws, which subclasses it and changes only the
      device class. */
  class FreeboxPir {
    const ident: Identity
    const name: string
    const commandTrigger: int
    const deviceClass: DeviceClass
    var detection: bool
    ghost var events: seq<Host.Event>

    function IsOn(): bool
      reads this
    {
      detection
    }

    /** A motion detector for a pir node. */
    constructor Pir(mac: string, node: Node)
      ensures ident == MakeIdentity(mac, node, None) && name == Strip(node.labelText)
      ensures commandTrigger == GetCommandId(node.typeEndpoints, SIGNAL, "trigger")
      ensures deviceClass == Motion
      ensures !IsOn() && events == [Host.TrackTimeInterval(1)]
    {
      ident := MakeIdentity(mac, node, None);
      name := Strip(node.labelText);
      commandTrigger := GetCommandId(node.typeEndpoints, SIGNAL, "trigger");
      deviceClass := Motion;
      detection := false;
      events := [Host.TrackTimeInterval(1)];
    }

    /** A door detector: the same construction, device class DOOR. */
    constructor Dws(mac: string, node: Node)
      ensures ident == MakeIdentity(mac, node, None) && name == Strip(node.labelText)
      ensures commandTrigger == GetCommandId(node.typeEndpoints, SIGNAL, "trigger")
      ensures deviceClass == Door
      ensures !IsOn() && events == [Host.TrackTimeInterval(1)]
    {
      ident := MakeIdentity(mac, node, None);
      name := Strip(node.labelText);
      commandTrigger := GetCommandId(node.typeEndpoints, SIGNAL, "trigger");
      deviceClass := Door;
      detection := false;
      events := [Host.TrackTimeInterval(1)];
    }

    /** async_update_pir: one guarded read of the trigger signal; the state
        is written exactly when the flag changes. */
    method AsyncUpdatePir(api: Gateway.HomeApi, reply: Option<Value>)
      modifies this, api
      ensures api.calls == old(api.calls) + ReadCalls(ident.id, commandTrigger)
      ensures detection == PollDetection(old(detection), ReadResult(commandTrigger, reply))
      ensures events == old(events) +
        if detection != old(detection) then [Host.WriteHaState] else []
    {
      var v := GetHomeEndpointValue(api, ident.id, commandTrigger, reply);
      PollChangesIff(detection, v);
      if PyEq(VBool(detection), v) {
        detection := !Truthy(v);
        events := events + [Host.WriteHaState];
      }
    }

    /** async_will_remove_from_hass: cancels the poll timer. */
    method WillRemove()
      modifies this
      ensures events == old(events) + [Host.Unsubscribe] && detection == old(detection)
    {
      events := events + [Host.Unsubscribe];
    }
  }

  /** The plastic-cover sensor of a node. */
  class FreeboxSensorCover {
    const ident: Identity
    const name: string
    const commandCover: int
    /** `_open`: the last value read, reported as is by `is_on`. */
    var open: Value
    ghost var events: seq<Host.Event>

    function IsOn(): Value
      reads this
    {
      open
    }

    /** The sub node that names the entity comes from type.endpoints, while
        the command id comes from show_endpoints. */
    constructor (mac: string, node: Node)
      ensures var sub := FindEndpoint(node.typeEndpoints, SIGNAL, "cover");
        ident == MakeIdentity(mac, node, sub) && name == EntityName(node, sub)
      ensures commandCover == GetCommandId(node.showEndpoints, SIGNAL, "cover")
      ensures IsOn() == VBool(false) && events == [Host.TrackTimeInterval(3)]
    {
      var sub := FindEndpoint(node.typeEndpoints, SIGNAL, "cover");
      ident := MakeIdentity(mac, node, sub);
      name := EntityName(node, sub);
      commandCover := GetCommandId(node.showEndpoints, SIGNAL, "cover");
      open := VBool(false);
      events := [Host.TrackTimeInterval(3)];
    }

    /** async_update_pir: copies the read and writes the state every time. */
    method AsyncUpdatePir(api: Gateway.HomeApi, reply: Option<Value>)
      modifies this, api
      ensures api.calls == old(api.calls) + ReadCalls(ident.id, commandCover)
      ensures IsOn() == ReadResult(commandCover, reply)
      ensures events == old(events) + [Host.WriteHaState]
    {
      open := GetHomeEndpointValue(api, ident.id, commandCover, reply);
      events := events + [Host.WriteHaState];
    }

    method WillRemove()
      modifies this
      ensures events == old(events) + [Host.Unsubscribe] && open == old(open)
    {
      events := events + [Host.Unsubscribe];
    }
  }

  /** A safety sensor built for a node that lost its cover signal from
      show_endpoints polls nothing and reports the sentinel, which is truthy,
      as "on". */
  lemma SentinelCoverReadsOn()
    ensures ReadResult(VALUE_NOT_SET, None) == NotSet && Truthy(NotSet)
  {
  }
}
