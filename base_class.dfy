/** What every Freebox Home entity shares (custom_components/freebox_home/base_class.py):
    the node and endpoint records of the gateway's JSON, the first-match
    endpoint resolver with its VALUE_NOT_SET sentinel, the identity an entity
    derives from its node, and the guarded read and write through the gateway. */
module BaseClass {
  import opened Values
  import Gateway

  const SIGNAL: string := "signal"
  const SLOT: string := "slot"

  /** One endpoint of a node; `value` is None when the JSON has no "value" key. */
  datatype Endpoint = Endpoint(id: int, epType: string, name: string, labelText: string, value: Option<Value>)

  /** One node of the gateway: `firmware` is props.FwVersion and `inherit` is
      type.inherit, each None when the key is absent. */
  datatype Node = Node(
    id: int,
    labelText: string,
    category: string,
    firmware: Option<Value>,
    inherit: Option<Value>,
    typeEndpoints: seq<Endpoint>,
    showEndpoints: seq<Endpoint>)

  // ---------------------------------------------------------------------
  // Endpoint resolution

  predicate Matches(e: Endpoint, epType: string, name: string) {
    e.name == name && e.epType == epType
  }

  /** `i` is the position of the first endpoint with that role and name. */
  predicate IsFirstMatch(eps: seq<Endpoint>, epType: string, name: string, i: int) {
    && 0 <= i < |eps|
    && Matches(eps[i], epType, name)
    && forall j | 0 <= j < i :: !Matches(eps[j], epType, name)
  }

  predicate NoMatch(eps: seq<Endpoint>, epType: string, name: string) {
    forall j | 0 <= j < |eps| :: !Matches(eps[j], epType, name)
  }

  /** The position of the first endpoint of the given type and name, if any. */
  function FirstMatchIndex(eps: seq<Endpoint>, epType: string, name: string): (r: Option<nat>)
    ensures r.Some? ==> IsFirstMatch(eps, epType, name, r.value)
    ensures r.None? <==> NoMatch(eps, epType, name)
  {
    if |eps| == 0 then None
    else if Matches(eps[0], epType, name) then Some(0)
    else
      match FirstMatchIndex(eps[1..], epType, name)
      case None =>
        assert forall j | 1 <= j < |eps| :: eps[j] == eps[1..][j - 1];
        None
      case Some(k) =>
        assert forall j | 1 <= j <= k + 1 :: eps[j] == eps[1..][j - 1];
        Some(k + 1)
  }

  /** The first endpoint whose name and type both match, or None when no
      endpoint does. */
  function FindEndpoint(eps: seq<Endpoint>, epType: string, name: string): (r: Option<Endpoint>)
    ensures r.None? <==> NoMatch(eps, epType, name)
    ensures forall i | IsFirstMatch(eps, epType, name, i) :: r == Some(eps[i])
  {
    match FirstMatchIndex(eps, epType, name)
    case None => None
    case Some(i) => Some(eps[i])
  }

  /** base_class.py get_command_id: the id of the first matching endpoint, or
      VALUE_NOT_SET when nothing matches; it never raises. */
  function GetCommandId(eps: seq<Endpoint>, epType: string, name: string): (r: int)
    ensures NoMatch(eps, epType, name) ==> r == VALUE_NOT_SET
    ensures forall i | IsFirstMatch(eps, epType, name, i) :: r == eps[i].id
  {
    match FindEndpoint(eps, epType, name)
    case None => VALUE_NOT_SET
    case Some(e) => e.id
  }

  /** With the gateway's non-negative endpoint ids, the sentinel comes back
      exactly when no endpoint matches. */
  lemma CommandIdNotSetIff(eps: seq<Endpoint>, epType: string, name: string)
    requires forall j | 0 <= j < |eps| :: eps[j].id >= 0
    ensures GetCommandId(eps, epType, name) == VALUE_NOT_SET <==> NoMatch(eps, epType, name)
  {
    var r := FirstMatchIndex(eps, epType, name);
    if r.Some? {
      assert IsFirstMatch(eps, epType, name, r.value);
    }
  }

  /** An endpoint whose id is itself -1 cannot be told apart from a missing one. */
  lemma CommandIdSentinelCollision()
    ensures var eps := [Endpoint(-1, SLOT, "off", "Off", None)];
      !NoMatch(eps, SLOT, "off") && GetCommandId(eps, SLOT, "off") == VALUE_NOT_SET
  {
    var eps := [Endpoint(-1, SLOT, "off", "Off", None)];
    assert IsFirstMatch(eps, SLOT, "off", 0);
  }

  /** base_class.py get_node_value: the first match's "value", VALUE_NOT_SET when
      nothing matches or the match has no "value" key. */
  function GetNodeValue(eps: seq<Endpoint>, epType: string, name: string): (r: Value)
    ensures NoMatch(eps, epType, name) ==> r == NotSet
    ensures forall i | IsFirstMatch(eps, epType, name, i) ::
      r == if eps[i].value.Some? then eps[i].value.value else NotSet
  {
    match FindEndpoint(eps, epType, name)
    case None => NotSet
    case Some(e) => e.value.GetOr(NotSet)
  }

  // ---------------------------------------------------------------------
  // Identity derived in the constructor

  datatype Identity = Identity(
    id: int,
    deviceName: string,
    uniqueId: string,
    isDevice: bool,
    firmware: Option<Value>,
    manufacturer: string,
    model: string)

  /** The model reference the constructor assigns for a known Free category. */
  function CategoryModel(category: string): Option<string> {
    if category == "pir" then Some("F-HAPIR01A")
    else if category == "camera" then Some("F-HACAM01A")
    else if category == "dws" then Some("F-HADWS01A")
    else if category == "kfb" then Some("F-HAKFB01A")
    else if category == "alarm" then Some("F-MSEC07A")
    else None
  }

  predicate IsSomfyInherit(inherit: Option<Value>) {
    inherit == Some(VStr("node::rts")) || inherit == Some(VStr("node::ios"))
  }

  function BaseUniqueId(mac: string, nodeId: int): string {
    mac + "-node_" + IntToString(nodeId)
  }

  /** The entity's display name: the sub node's label when there is one,
      otherwise the node's label, stripped. */
  function EntityName(node: Node, subNode: Option<Endpoint>): string {
    if subNode.Some? then Strip(subNode.value.labelText) else Strip(node.labelText)
  }

  /** The (manufacturer, model) pair the constructor assigns: the category
      decides first, and only then does type.inherit make it a Somfy motor. */
  function DeviceMaker(category: string, inherit: Option<Value>): (r: (string, string))
    ensures CategoryModel(category).Some? ==> r == ("Free SAS", CategoryModel(category).value)
    ensures r.0 == "Somfy" <==> CategoryModel(category).None? && IsSomfyInherit(inherit)
    ensures r.1 == "" <==> CategoryModel(category).None? && !IsSomfyInherit(inherit)
  {
    if CategoryModel(category).Some? then ("Free SAS", CategoryModel(category).value)
    else if inherit == Some(VStr("node::rts")) then ("Somfy", "RTS")
    else if inherit == Some(VStr("node::ios")) then ("Somfy", "IOcontrol")
    else ("Free SAS", "")
  }

  /** The unique id: the node's base id, extended by the stripped sub node
      name when there is a sub node. */
  function UniqueIdOf(base: string, subNode: Option<Endpoint>): (r: string)
    ensures StartsWith(r, base)
    ensures subNode.None? ==> r == base
    ensures subNode.Some? ==> r[|base|..] == "-" + Strip(subNode.value.name)
  {
    if subNode.Some? then base + "-" + Strip(subNode.value.name) else base
  }

  /** FreeboxBaseClass.__init__: identity, unique id and device model. */
  function MakeIdentity(mac: string, node: Node, subNode: Option<Endpoint>): (r: Identity)
    ensures r.id == node.id && r.isDevice && r.firmware == node.firmware
    ensures r.deviceName == Strip(node.labelText)
    ensures r.uniqueId == UniqueIdOf(BaseUniqueId(mac, node.id), subNode)
    ensures (r.manufacturer, r.model) == DeviceMaker(node.category, node.inherit)
  {
    var device := DeviceMaker(node.category, node.inherit);
    Identity(node.id, Strip(node.labelText), UniqueIdOf(BaseUniqueId(mac, node.id), subNode),
             true, node.firmware, device.0, device.1)
  }

  /** Entities built for two different nodes, without a sub node, never share
      a unique id. */
  lemma UniqueIdsDistinct(mac: string, a: Node, b: Node)
    requires a.id != b.id
    ensures MakeIdentity(mac, a, None).uniqueId != MakeIdentity(mac, b, None).uniqueId
  {
    var prefix := mac + "-node_";
    if MakeIdentity(mac, a, None).uniqueId == MakeIdentity(mac, b, None).uniqueId {
      assert IntToString(a.id) == (prefix + IntToString(a.id))[|prefix|..];
      assert IntToString(b.id) == (prefix + IntToString(b.id))[|prefix|..];
      IntToStringInjective(a.id, b.id);
    }
  }

  datatype DeviceInfo = DeviceInfo(
    identifiers: set<(string, int)>,
    name: string,
    manufacturer: string,
    model: string,
    swVersion: Option<Value>)

  /** The `device_info` property. */
  function GetDeviceInfo(ident: Identity): (r: Option<DeviceInfo>)
    ensures r.None? <==> !ident.isDevice
    ensures r.Some? ==> (DOMAIN, ident.id) in r.value.identifiers
  {
    if !ident.isDevice then None
    else Some(DeviceInfo({(DOMAIN, ident.id)}, ident.deviceName, ident.manufacturer, ident.model, ident.firmware))
  }

  /** The constructor never clears `_is_device`, so every entity reports a
      device, named after its node. */
  lemma DeviceInfoAlwaysPresent(mac: string, node: Node, subNode: Option<Endpoint>)
    ensures var info := GetDeviceInfo(MakeIdentity(mac, node, subNode));
      info.Some? && info.value.name == Strip(node.labelText) && info.value.identifiers == {(DOMAIN, node.id)}
  {
  }

  // ---------------------------------------------------------------------
  // Guarded access to the gateway

  /** What get_home_endpoint_value returns for a command id and the gateway's
      reply (the reply's "value" key). */
  function ReadResult(commandId: int, reply: Option<Value>): (v: Value)
    ensures commandId == VALUE_NOT_SET ==> v == NotSet
    ensures commandId != VALUE_NOT_SET ==> v == reply.GetOr(NotSet)
  {
    if commandId == VALUE_NOT_SET then NotSet else reply.GetOr(NotSet)
  }

  /** The requests a guarded write sends: none for the sentinel, one otherwise. */
  function WriteCalls(nodeId: int, commandId: int, payload: Value): seq<Gateway.Call> {
    if commandId == VALUE_NOT_SET then [] else [Gateway.SetValue(nodeId, commandId, payload)]
  }

  function ReadCalls(nodeId: int, commandId: int): seq<Gateway.Call> {
    if commandId == VALUE_NOT_SET then [] else [Gateway.GetValue(nodeId, commandId)]
  }

  /** base_class.py set_home_endpoint_value. */
  method SetHomeEndpointValue(api: Gateway.HomeApi, nodeId: int, commandId: int, payload: Value)
    returns (ok: bool)
    modifies api
    ensures ok <==> commandId != VALUE_NOT_SET
    ensures api.calls == old(api.calls) + WriteCalls(nodeId, commandId, payload)
  {
    if commandId == VALUE_NOT_SET {
      return false;
    }
    api.SetHomeEndpointValue(nodeId, commandId, payload);
    return true;
  }

  /** base_class.py get_home_endpoint_value. */
  method GetHomeEndpointValue(api: Gateway.HomeApi, nodeId: int, commandId: int, reply: Option<Value>)
    returns (v: Value)
    modifies api
    ensures v == ReadResult(commandId, reply)
    ensures api.calls == old(api.calls) + ReadCalls(nodeId, commandId)
  {
    if commandId == VALUE_NOT_SET {
      return NotSet;
    }
    var answer := api.GetHomeEndpointValue(nodeId, commandId, reply);
    v := answer.GetOr(NotSet);
  }
}
