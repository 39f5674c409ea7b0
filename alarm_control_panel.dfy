/** The current alarm adapter (custom_components/freebox_home/alarm_control_panel.py):
    slots bound by get_command_id (the first match wins), the raw gateway
    state kept as read and mapped on demand by `alarm_state`, whose branches
    for "alarm2_arming" and "alarm2_alert_timer" name undefined identifiers
    and so raise NameError, and the arm/disarm commands. */
module AlarmControlPanel {
  import opened Values
  import opened BaseClass
  import opened Registry
  import opened AlarmCommon
  import LegacyAlarmControlPanel
  import Gateway
  import Host

  /** The `alarm_state` property over the raw state. */
  function AlarmStateOf(raw: Value): (r: Outcome<AlarmState>)
    ensures r.Raised? <==> raw == VStr("alarm2_arming") || raw == VStr("alarm2_alert_timer")
    ensures r.Raised? ==> r.error == NameError
    ensures r == Ok(Arming) <==> raw == VStr("alarm1_arming")
    ensures r == Ok(ArmedAway) <==> raw == VStr("alarm1_armed")
    ensures r == Ok(ArmedNight) <==> raw == VStr("alarm2_armed")
    ensures r == Ok(Triggered) <==> raw == VStr("alarm1_alert_timer") || raw == VStr("alert")
  {
    if raw == VStr("alarm1_arming") then Ok(Arming)
    else if raw == VStr("alarm2_arming") then Raised(NameError)        // SAlarmControlPanelState
    else if raw == VStr("alarm1_armed") then Ok(ArmedAway)
    else if raw == VStr("alarm2_armed") then Ok(ArmedNight)
    else if raw == VStr("alarm1_alert_timer") then Ok(Triggered)
    else if raw == VStr("alarm2_alert_timer") then Raised(NameError)   // returnAlarmControlPanelState
    else if raw == VStr("alert") then Ok(Triggered)
    else Ok(Disarmed)
  }

  /** The two versions agree on every raw state except the two whose
      branches raise here. */
  lemma AlarmStateMatchesLegacy(raw: Value)
    ensures AlarmStateOf(raw).Ok? ==>
      AlarmStateOf(raw).value == LegacyAlarmControlPanel.LegacyAlarmState(raw)
    ensures AlarmStateOf(raw).Raised? ==>
      LegacyAlarmControlPanel.LegacyAlarmState(raw) in {Arming, Triggered}
  {
  }

  /** The sentinel read and "idle" both show as DISARMED. */
  lemma IdleAndNotSetAreDisarmed()
    ensures AlarmStateOf(VStr("idle")) == Ok(Disarmed)
    ensures AlarmStateOf(NotSet) == Ok(Disarmed)
  {
  }

  /** The eleven slot lookups of `__init__`: each slot is bound by
      get_command_id over the node's type endpoints under its own name, so
      to the first slot endpoint of that name, or VALUE_NOT_SET. */
  method BindFirstSlots(eps: seq<Endpoint>) returns (b: SlotBindings)
    ensures forall s: Slot :: b.Get(s) == GetCommandId(eps, SLOT, SlotName(s))
  {
    b := SlotBindings(
      GetCommandId(eps, SLOT, "trigger"), GetCommandId(eps, SLOT, "alarm1"),
      GetCommandId(eps, SLOT, "alarm2"), GetCommandId(eps, SLOT, "skip"),
      GetCommandId(eps, SLOT, "off"), GetCommandId(eps, SLOT, "pin"),
      GetCommandId(eps, SLOT, "sound"), GetCommandId(eps, SLOT, "volume"),
      GetCommandId(eps, SLOT, "timeout1"), GetCommandId(eps, SLOT, "timeout2"),
      GetCommandId(eps, SLOT, "timeout3"));
    forall s: Slot ensures b.Get(s) == GetCommandId(eps, SLOT, SlotName(s)) {
      match s
      case TriggerSlot =>
      case Alarm1Slot =>
      case Alarm2Slot =>
      case SkipSlot =>
      case OffSlot =>
      case PinSlot =>
      case SoundSlot =>
      case VolumeSlot =>
      case Timeout1Slot =>
      case Timeout2Slot =>
      case Timeout3Slot =>
    }
  }

  class FreeboxAlarm {
    const ident: Identity
    var name: string
    const commands: SlotBindings
    const commandState: int
    /** `_freebox_alarm_state`: the raw state as last read. */
    var freeboxAlarmState: Value
    /** Whether `_unsub_watcher` holds a handle (it is never reset to None). */
    var hasWatcher: bool
    var supportedFeatures: set<Feature>
    var params: AlarmParams
    ghost var events: seq<Host.Event>

    function AlarmState(): Outcome<AlarmState>
      reads this
    {
      AlarmStateOf(freeboxAlarmState)
    }

    /** `__init__` up to the call of update_parameters. */
    constructor (mac: string, node: Node)
      ensures ident == MakeIdentity(mac, node, None) && name == Strip(node.labelText)
      ensures forall s: Slot :: commands.Get(s) == GetCommandId(node.typeEndpoints, SLOT, SlotName(s))
      ensures commandState == GetCommandId(node.typeEndpoints, SIGNAL, "state")
      ensures freeboxAlarmState == VStr("idle") && AlarmState() == Ok(Disarmed)
      ensures !hasWatcher && supportedFeatures == {ArmAway}
      ensures params == NoParams && events == []
    {
      IdleAndNotSetAreDisarmed();
      var bound := BindFirstSlots(node.typeEndpoints);
      ident := MakeIdentity(mac, node, None);
      name := Strip(node.labelText);
      commands := bound;
      commandState := GetCommandId(node.typeEndpoints, SIGNAL, "state");
      freeboxAlarmState := VStr("idle");
      hasWatcher := false;
      supportedFeatures := {ArmAway};
      params := NoParams;
      events := [];
    }

    /** update_parameters: the name first, then the alarm2 scan, which may
        raise KeyError before features and parameters are touched. */
    method UpdateParameters(node: Node, reg: Snapshot) returns (raised: Option<PyError>)
      requires reg.Valid()
      modifies this
      ensures name == Strip(node.labelText)
      ensures ScanResult(reg.Values()).Raised? ==>
        raised == Some(KeyError) && supportedFeatures == old(supportedFeatures) && params == old(params)
      ensures ScanResult(reg.Values()).Ok? ==>
        && supportedFeatures == CurrentFeatures(ScanResult(reg.Values()).value)
        && params == ParseSignals(node.showEndpoints, old(params)).params
        && raised == if ParseSignals(node.showEndpoints, old(params)).failed then Some(KeyError) else None
      ensures freeboxAlarmState == old(freeboxAlarmState) && hasWatcher == old(hasWatcher)
      ensures events == old(events)
    {
      name := Strip(node.labelText);
      var scan := ScanAlarm2(reg);
      if scan.Raised? {
        return Some(scan.error);
      }
      supportedFeatures := CurrentFeatures(scan.value);
      var r := ParseSignalValues(node.showEndpoints, params);
      params := r.params;
      raised := if r.failed then Some(KeyError) else None;
    }

    /** async_update: stores the read raw state, cancels the watcher on
        "idle", then refreshes name, features and parameters from the
        registry (a KeyError when the node has left it). */
    method AsyncUpdate(api: Gateway.HomeApi, reg: Snapshot, reply: Option<Value>)
      returns (raised: Option<PyError>)
      requires reg.Valid()
      modifies this, api
      ensures freeboxAlarmState == ReadResult(commandState, reply)
      ensures hasWatcher == old(hasWatcher)
      ensures api.calls == old(api.calls) + ReadCalls(ident.id, commandState)
      ensures events == old(events) +
        if ReadResult(commandState, reply) == VStr("idle") && old(hasWatcher) then [Host.Unsubscribe] else []
      ensures ident.id !in reg.nodes ==>
        raised == Some(KeyError) && name == old(name) && params == old(params)
        && supportedFeatures == old(supportedFeatures)
      ensures ident.id in reg.nodes ==> name == Strip(reg.nodes[ident.id].labelText)
      ensures ident.id in reg.nodes && ScanResult(reg.Values()).Raised? ==>
        raised == Some(KeyError) && supportedFeatures == old(supportedFeatures) && params == old(params)
      ensures ident.id in reg.nodes && ScanResult(reg.Values()).Ok? ==>
        && supportedFeatures == CurrentFeatures(ScanResult(reg.Values()).value)
        && params == ParseSignals(reg.nodes[ident.id].showEndpoints, old(params)).params
        && raised == if ParseSignals(reg.nodes[ident.id].showEndpoints, old(params)).failed then Some(KeyError) else None
    {
      freeboxAlarmState := GetHomeEndpointValue(api, ident.id, commandState, reply);
      if freeboxAlarmState == VStr("idle") && hasWatcher {
        events := events + [Host.Unsubscribe];
      }
      if ident.id !in reg.nodes {
        return Some(KeyError);
      }
      raised := UpdateParameters(reg.nodes[ident.id], reg);
    }

    method SyncUpdateDuringArming(api: Gateway.HomeApi, reply: Option<Value>)
      modifies this, api
      ensures freeboxAlarmState == ReadResult(commandState, reply)
      ensures api.calls == old(api.calls) + ReadCalls(ident.id, commandState)
      ensures events == old(events) + [Host.WriteHaState]
      ensures hasWatcher == old(hasWatcher)
      ensures name == old(name) && supportedFeatures == old(supportedFeatures) && params == old(params)
    {
      freeboxAlarmState := GetHomeEndpointValue(api, ident.id, commandState, reply);
      events := events + [Host.WriteHaState];
    }

    method AlarmDisarm(api: Gateway.HomeApi) returns (ok: bool)
      modifies this, api
      ensures ok <==> commands.off != VALUE_NOT_SET
      ensures api.calls == old(api.calls) + WriteCalls(ident.id, commands.off, VNull)
      ensures events == old(events) + if ok then [Host.ScheduleUpdateHaState(true)] else []
      ensures freeboxAlarmState == old(freeboxAlarmState) && hasWatcher == old(hasWatcher)
      ensures name == old(name) && supportedFeatures == old(supportedFeatures) && params == old(params)
    {
      ok := SetHomeEndpointValue(api, ident.id, commands.off, VNull);
      if ok {
        events := events + [Host.ScheduleUpdateHaState(true)];
      }
    }

    method AlarmArmAway(api: Gateway.HomeApi) returns (ok: bool)
      modifies this, api
      ensures ok <==> commands.alarm1 != VALUE_NOT_SET
      ensures api.calls == old(api.calls) + WriteCalls(ident.id, commands.alarm1, VNull)
      ensures hasWatcher == (old(hasWatcher) || ok)
      ensures events == old(events) + if ok then [Host.TrackTimeInterval(1)] else []
      ensures freeboxAlarmState == old(freeboxAlarmState)
      ensures name == old(name) && supportedFeatures == old(supportedFeatures) && params == old(params)
    {
      ok := SetHomeEndpointValue(api, ident.id, commands.alarm1, VNull);
      if ok {
        hasWatcher := true;
        events := events + [Host.TrackTimeInterval(1)];
      }
    }

    method AlarmArmNight(api: Gateway.HomeApi) returns (ok: bool)
      modifies this, api
      ensures ok <==> commands.alarm2 != VALUE_NOT_SET
      ensures api.calls == old(api.calls) + WriteCalls(ident.id, commands.alarm2, VNull)
      ensures hasWatcher == (old(hasWatcher) || ok)
      ensures events == old(events) + if ok then [Host.TrackTimeInterval(1)] else []
      ensures freeboxAlarmState == old(freeboxAlarmState)
      ensures name == old(name) && supportedFeatures == old(supportedFeatures) && params == old(params)
    {
      ok := SetHomeEndpointValue(api, ident.id, commands.alarm2, VNull);
      if ok {
        hasWatcher := true;
        events := events + [Host.TrackTimeInterval(1)];
      }
    }

    /** Arming "home" is arming "night". */
    method AlarmArmHome(api: Gateway.HomeApi) returns (ok: bool)
      modifies this, api
      ensures ok <==> commands.alarm2 != VALUE_NOT_SET
      ensures api.calls == old(api.calls) + WriteCalls(ident.id, commands.alarm2, VNull)
      ensures hasWatcher == (old(hasWatcher) || ok)
      ensures events == old(events) + if ok then [Host.TrackTimeInterval(1)] else []
      ensures freeboxAlarmState == old(freeboxAlarmState)
      ensures name == old(name) && supportedFeatures == old(supportedFeatures) && params == old(params)
    {
      ok := AlarmArmNight(api);
    }
  }

  /** `FreeboxAlarm(hass, router, node)`: the constructor, then
      update_parameters; `raised` is the KeyError the latter may raise, in
      which case the caller never receives the entity. */
  method NewAlarm(mac: string, node: Node, reg: Snapshot) returns (a: FreeboxAlarm, raised: Option<PyError>)
    requires reg.Valid()
    ensures fresh(a)
    ensures a.ident == MakeIdentity(mac, node, None) && a.AlarmState() == Ok(Disarmed) && !a.hasWatcher
    ensures a.name == Strip(node.labelText)
    ensures ScanResult(reg.Values()).Raised? ==>
      raised == Some(KeyError) && a.supportedFeatures == {ArmAway} && a.params == NoParams
    ensures ScanResult(reg.Values()).Ok? ==>
      && a.supportedFeatures == CurrentFeatures(ScanResult(reg.Values()).value)
      && a.params == ParseSignals(node.showEndpoints, NoParams).params
      && raised == if ParseSignals(node.showEndpoints, NoParams).failed then Some(KeyError) else None
  {
    a := new FreeboxAlarm(mac, node);
    raised := a.UpdateParameters(node, reg);
  }
}
