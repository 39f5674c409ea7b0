/** The older alarm adapter (alarm_control_panel.py at the repository root):
    slots bound by a walk that lets the last matching slot win, a total
    `set_state` mapping kept in `_state`, and the arm/disarm commands. */
module LegacyAlarmControlPanel {
  import opened Values
  import opened BaseClass
  import opened Registry
  import opened AlarmCommon
  import Gateway
  import Host

  /** `set_state`: every raw state maps to a host state; anything
      unrecognised, including the VALUE_NOT_SET read, is DISARMED. */
  function LegacyAlarmState(raw: Value): (r: AlarmState)
    ensures r == Arming <==> raw == VStr("alarm1_arming") || raw == VStr("alarm2_arming")
    ensures r == ArmedAway <==> raw == VStr("alarm1_armed")
    ensures r == ArmedNight <==> raw == VStr("alarm2_armed")
    ensures r == Triggered <==>
      raw == VStr("alarm1_alert_timer") || raw == VStr("alarm2_alert_timer") || raw == VStr("alert")
  {
    if raw == VStr("alarm1_arming") then Arming
    else if raw == VStr("alarm2_arming") then Arming
    else if raw == VStr("alarm1_armed") then ArmedAway
    else if raw == VStr("alarm2_armed") then ArmedNight
    else if raw == VStr("alarm1_alert_timer") then Triggered
    else if raw == VStr("alarm2_alert_timer") then Triggered
    else if raw == VStr("alert") then Triggered
    else Disarmed
  }

  // ---------------------------------------------------------------------
  // Slot binding: the last matching slot wins

  /** `i` is the position of the last endpoint with that role and name. */
  predicate IsLastMatch(eps: seq<Endpoint>, epType: string, name: string, i: int) {
    && 0 <= i < |eps|
    && Matches(eps[i], epType, name)
    && forall j | i < j < |eps| :: !Matches(eps[j], epType, name)
  }

  /** The id the binding walk leaves in the field for slot `name`. */
  function LastSlotId(eps: seq<Endpoint>, name: string): (r: int)
    ensures NoMatch(eps, SLOT, name) ==> r == VALUE_NOT_SET
    ensures forall i | IsLastMatch(eps, SLOT, name, i) :: r == eps[i].id
    decreases |eps|
  {
    if eps == [] then VALUE_NOT_SET
    else if Matches(eps[|eps| - 1], SLOT, name) then eps[|eps| - 1].id
    else
      var init := eps[..|eps| - 1];
      assert forall i | IsLastMatch(eps, SLOT, name, i) :: IsLastMatch(init, SLOT, name, i);
      LastSlotId(init, name)
  }

  /** One pass of the if/elif chain: a slot endpoint with a recognised name
      overwrites that field and no other. */
  function Bind(b: SlotBindings, e: Endpoint): (r: SlotBindings)
    ensures forall s: Slot ::
      r.Get(s) == if Matches(e, SLOT, SlotName(s)) then e.id else b.Get(s)
  {
    if e.epType != SLOT then b
    else if e.name == "pin" then b.(pin := e.id)
    else if e.name == "sound" then b.(sound := e.id)
    else if e.name == "volume" then b.(volume := e.id)
    else if e.name == "timeout1" then b.(timeout1 := e.id)
    else if e.name == "timeout2" then b.(timeout2 := e.id)
    else if e.name == "timeout3" then b.(timeout3 := e.id)
    else if e.name == "trigger" then b.(trigger := e.id)
    else if e.name == "alarm1" then b.(alarm1 := e.id)
    else if e.name == "alarm2" then b.(alarm2 := e.id)
    else if e.name == "skip" then b.(skip := e.id)
    else if e.name == "off" then b.(off := e.id)
    else b
  }

  const Unbound: SlotBindings :=
    SlotBindings(VALUE_NOT_SET, VALUE_NOT_SET, VALUE_NOT_SET, VALUE_NOT_SET,
      VALUE_NOT_SET, VALUE_NOT_SET, VALUE_NOT_SET, VALUE_NOT_SET,
      VALUE_NOT_SET, VALUE_NOT_SET, VALUE_NOT_SET)

  /** The constructor's binding loop: every field starts at VALUE_NOT_SET and
      ends as the id of the last slot endpoint of its name. */
  method BindSlots(eps: seq<Endpoint>) returns (b: SlotBindings)
    ensures forall s: Slot :: b.Get(s) == LastSlotId(eps, SlotName(s))
  {
    b := Unbound;
    var i := 0;
    while i < |eps|
      invariant 0 <= i <= |eps|
      invariant forall s: Slot :: b.Get(s) == LastSlotId(eps[..i], SlotName(s))
    {
      assert eps[..i + 1][..i] == eps[..i];
      b := Bind(b, eps[i]);
      i := i + 1;
    }
    assert eps[..i] == eps;
  }

  /** When no slot name occurs twice, letting the last match win (this file)
      and letting the first match win (get_command_id, used by the current
      adapter) bind the same ids. */
  lemma LastAndFirstAgree(eps: seq<Endpoint>, name: string)
    requires forall i, j | 0 <= i < j < |eps| :: !(Matches(eps[i], SLOT, name) && Matches(eps[j], SLOT, name))
    ensures LastSlotId(eps, name) == GetCommandId(eps, SLOT, name)
  {
    var k := FirstMatchIndex(eps, SLOT, name);
    if k.Some? {
      assert IsLastMatch(eps, SLOT, name, k.value);
      assert IsFirstMatch(eps, SLOT, name, k.value);
    }
  }

  // ---------------------------------------------------------------------
  // The entity

  class FreeboxAlarm {
    const ident: Identity
    var name: string
    const commands: SlotBindings
    const commandState: int
    var state: AlarmState
    /** Whether `_unsub_watcher` holds a handle (it is never reset to None). */
    var hasWatcher: bool
    var supportedFeatures: set<Feature>
    var params: AlarmParams
    ghost var events: seq<Host.Event>

    /** `__init__` up to the call of update_parameters. */
    constructor (mac: string, node: Node)
      ensures ident == MakeIdentity(mac, node, None) && name == Strip(node.labelText)
      ensures forall s: Slot :: commands.Get(s) == LastSlotId(node.typeEndpoints, SlotName(s))
      ensures commandState == GetCommandId(node.typeEndpoints, SIGNAL, "state")
      ensures state == Disarmed && !hasWatcher && supportedFeatures == {ArmAway}
      ensures params == NoParams && events == []
    {
      var bound := BindSlots(node.typeEndpoints);
      ident := MakeIdentity(mac, node, None);
      name := Strip(node.labelText);
      commands := bound;
      commandState := GetCommandId(node.typeEndpoints, SIGNAL, "state");
      state := Disarmed;
      hasWatcher := false;
      supportedFeatures := {ArmAway};
      params := NoParams;
      events := [];
      new;
      SetState(VStr("idle"));
    }

    method SetState(raw: Value)
      modifies this
      ensures state == LegacyAlarmState(raw)
      ensures name == old(name) && hasWatcher == old(hasWatcher)
      ensures supportedFeatures == old(supportedFeatures) && params == old(params) && events == old(events)
    {
      state := LegacyAlarmState(raw);
    }

    /** update_parameters: the alarm2 scan comes first, so a KeyError there
        leaves every field as it was; then features, name and parameters. */
    method UpdateParameters(node: Node, reg: Snapshot) returns (raised: Option<PyError>)
      requires reg.Valid()
      modifies this
      ensures ScanResult(reg.Values()).Raised? ==>
        && raised == Some(KeyError) && name == old(name)
        && supportedFeatures == old(supportedFeatures) && params == old(params)
      ensures ScanResult(reg.Values()).Ok? ==>
        && supportedFeatures == LegacyFeatures(ScanResult(reg.Values()).value)
        && name == Strip(node.labelText)
        && params == ParseSignals(node.showEndpoints, old(params)).params
        && raised == if ParseSignals(node.showEndpoints, old(params)).failed then Some(KeyError) else None
      ensures state == old(state) && hasWatcher == old(hasWatcher) && events == old(events)
    {
      var scan := ScanAlarm2(reg);
      if scan.Raised? {
        return Some(scan.error);
      }
      supportedFeatures := LegacyFeatures(scan.value);
      name := Strip(node.labelText);
      var r := ParseSignalValues(node.showEndpoints, params);
      params := r.params;
      raised := if r.failed then Some(KeyError) else None;
    }

    /** async_update: reads the state signal but does not change `_state`;
        cancels the watcher on "idle"; then refreshes from the registry. */
    method AsyncUpdate(api: Gateway.HomeApi, reg: Snapshot, reply: Option<Value>)
      returns (raised: Option<PyError>)
      requires reg.Valid()
      modifies this, api
      ensures state == old(state) && hasWatcher == old(hasWatcher)
      ensures api.calls == old(api.calls) + ReadCalls(ident.id, commandState)
      ensures events == old(events) +
        if ReadResult(commandState, reply) == VStr("idle") && old(hasWatcher) then [Host.Unsubscribe] else []
      ensures ident.id !in reg.nodes ==>
        raised == Some(KeyError) && name == old(name) && params == old(params)
        && supportedFeatures == old(supportedFeatures)
      ensures ident.id in reg.nodes && ScanResult(reg.Values()).Raised? ==>
        && raised == Some(KeyError) && name == old(name)
        && supportedFeatures == old(supportedFeatures) && params == old(params)
      ensures ident.id in reg.nodes && ScanResult(reg.Values()).Ok? ==>
        && supportedFeatures == LegacyFeatures(ScanResult(reg.Values()).value)
        && name == Strip(reg.nodes[ident.id].labelText)
        && params == ParseSignals(reg.nodes[ident.id].showEndpoints, old(params)).params
        && raised == if ParseSignals(reg.nodes[ident.id].showEndpoints, old(params)).failed then Some(KeyError) else None
    {
      var v := GetHomeEndpointValue(api, ident.id, commandState, reply);
      if v == VStr("idle") && hasWatcher {
        events := events + [Host.Unsubscribe];
      }
      if ident.id !in reg.nodes {
        return Some(KeyError);
      }
      raised := UpdateParameters(reg.nodes[ident.id], reg);
    }

    method SyncUpdateDuringArming(api: Gateway.HomeApi, reply: Option<Value>)
      modifies this, api
      ensures state == LegacyAlarmState(ReadResult(commandState, reply))
      ensures api.calls == old(api.calls) + ReadCalls(ident.id, commandState)
      ensures events == old(events) + [Host.WriteHaState]
      ensures hasWatcher == old(hasWatcher)
      ensures name == old(name) && supportedFeatures == old(supportedFeatures) && params == old(params)
    {
      var v := GetHomeEndpointValue(api, ident.id, commandState, reply);
      SetState(v);
      events := events + [Host.WriteHaState];
    }

    method AlarmDisarm(api: Gateway.HomeApi) returns (ok: bool)
      modifies this, api
      ensures ok <==> commands.off != VALUE_NOT_SET
      ensures api.calls == old(api.calls) + WriteCalls(ident.id, commands.off, VNull)
      ensures events == old(events) + if ok then [Host.ScheduleUpdateHaState(true)] else []
      ensures state == old(state) && hasWatcher == old(hasWatcher)
      ensures name == old(name) && supportedFeatures == old(supportedFeatures) && params == old(params)
    {
      ok := SetHomeEndpointValue(api, ident.id, commands.off, VNull);
      if ok {
        events := events + [Host.ScheduleUpdateHaState(true)];
      }
    }

    method AlarmArmAway(api: Gateway.HomeApi) returns (ok: bool)
      modifies this, api
      ensures ok <==> commands.alarm1 != VALUE_NOT_SET
      ensures api.calls == old(api.calls) + WriteCalls(ident.id, commands.alarm1, VNull)
      ensures hasWatcher == (old(hasWatcher) || ok)
      ensures events == old(events) + if ok then [Host.TrackTimeInterval(1)] else []
      ensures state == old(state)
      ensures name == old(name) && supportedFeatures == old(supportedFeatures) && params == old(params)
    {
      ok := SetHomeEndpointValue(api, ident.id, commands.alarm1, VNull);
      if ok {
        hasWatcher := true;
        events := events + [Host.TrackTimeInterval(1)];
      }
    }

    method AlarmArmNight(api: Gateway.HomeApi) returns (ok: bool)
      modifies this, api
      ensures ok <==> commands.alarm2 != VALUE_NOT_SET
      ensures api.calls == old(api.calls) + WriteCalls(ident.id, commands.alarm2, VNull)
      ensures hasWatcher == (old(hasWatcher) || ok)
      ensures events == old(events) + if ok then [Host.TrackTimeInterval(1)] else []
      ensures state == old(state)
      ensures name == old(name) && supportedFeatures == old(supportedFeatures) && params == old(params)
    {
      ok := SetHomeEndpointValue(api, ident.id, commands.alarm2, VNull);
      if ok {
        hasWatcher := true;
        events := events + [Host.TrackTimeInterval(1)];
      }
    }

    /** Arming "home" is arming "night". */
    method AlarmArmHome(api: Gateway.HomeApi) returns (ok: bool)
      modifies this, api
      ensures ok <==> commands.alarm2 != VALUE_NOT_SET
      ensures api.calls == old(api.calls) + WriteCalls(ident.id, commands.alarm2, VNull)
      ensures hasWatcher == (old(hasWatcher) || ok)
      ensures events == old(events) + if ok then [Host.TrackTimeInterval(1)] else []
      ensures state == old(state)
      ensures name == old(name) && supportedFeatures == old(supportedFeatures) && params == old(params)
    {
      ok := AlarmArmNight(api);
    }
  }

  /** `FreeboxAlarm(hass, router, node)`: the constructor, then
      update_parameters; `raised` is the KeyError the latter may raise, in
      which case the caller never receives the entity. */
  method NewAlarm(mac: string, node: Node, reg: Snapshot) returns (a: FreeboxAlarm, raised: Option<PyError>)
    requires reg.Valid()
    ensures fresh(a)
    ensures a.ident == MakeIdentity(mac, node, None) && a.state == Disarmed && !a.hasWatcher
    ensures a.name == Strip(node.labelText)
    ensures ScanResult(reg.Values()).Raised? ==>
      raised == Some(KeyError) && a.supportedFeatures == {ArmAway} && a.params == NoParams
    ensures ScanResult(reg.Values()).Ok? ==>
      && a.supportedFeatures == LegacyFeatures(ScanResult(reg.Values()).value)
      && a.params == ParseSignals(node.showEndpoints, NoParams).params
      && raised == if ParseSignals(node.showEndpoints, NoParams).failed then Some(KeyError) else None
  {
    a := new FreeboxAlarm(mac, node);
    raised := a.UpdateParameters(node, reg);
  }
}
