# Freebox Home integration: a verified model

This project models the layer of the `freebox_home` Home Assistant integration that turns the
JSON of a Freebox Delta home gateway into entity state. The gateway reports nodes (detectors,
alarm, shutters), and each node has typed endpoints: `slot`s to write and `signal`s to read.

The model covers both generations of the integration: the current package under
`custom_components/freebox_home/` and the older files at the repository root. It covers:

- **Endpoint resolution** (`base_class.dfy`). `get_command_id` and `get_node_value` are first-match
  searches that return the sentinel `VALUE_NOT_SET = -1` when nothing matches. The guarded read
  and write never contact the gateway for the sentinel. The entity's identity (unique id,
  manufacturer, model, device info) is derived from its node.
- **The node registry** (`registry.dfy`, `router.dfy`, `legacy_router.dfy`).
  - A refresh merges the fetched node list into a dictionary keyed by node id. The current
    router filters by category and keeps the registry on an insufficient-permission error. The
    older router raises a "new device" flag and dispatches a signal; a failed fetch reaches its
    caller with the registry untouched.
  - The dictionary's iteration order is kept explicitly: first insertion wins a key's place.
    The platform setups walk the registry in that order.
  - `get_api`'s single retry on an authorisation error is modelled as a recursive function over
    the gateway's answers.
- **The alarm panels** (`alarm_common.dfy`, `alarm_control_panel.dfy`,
  `legacy_alarm_control_panel.dfy`): slot binding, the raw-state mapping, the registry-wide scan
  for a true `alarm2` signal that gates night and home arming, signal parsing, the arming
  watcher and the arm/disarm commands. The scan walks the registry in iteration order and
  raises KeyError when it reaches an `alarm2` signal without a value before any true one.
- **The shutters** (`cover.dfy`): the basic shutter's open/closed/None state machine with
  `convert_state`, and the positional shutter.
- **The binary detectors** (`binary_sensor.dfy`, `legacy_binary_sensor.dfy`): the
  flag-flipping poll, the plastic-cover sensor, and which entities the setup creates.
- **The battery sensors** (`sensor.dfy`): the setup gate and the `state` lookup.
- **The configuration flow** (`config_flow.dfy`): zeroconf validation, the flow's unique id,
  and the exception-to-error-key mapping of the link and permission steps.

Python semantics are written out in `values.dfy`:

- truthiness;
- `==` between bools and ints (`True == 1`);
- `str.strip` with Python's whitespace set;
- decimal rendering of ints.

An exception that Python raises is returned as a value (`Raised`/`raised`).

The vendor client is an oracle (`gateway.dfy`). Every answer it gives is an input of the
operation that asks for it, and every request goes into a ghost log `calls`. Host callbacks are
recorded in a ghost `events` log (`host.dfy`): starting and cancelling a watcher, writing
state, dispatching a signal.

Where a source file behaves differently from the integration's documentation, the model
follows the code:

- **Detectors.** After any boolean read the cached flag is the negation of the read. This is
  not a debounce over two reads.
- **Current alarm's state mapping.** `alarm_state` raises NameError for `alarm2_arming` and
  `alarm2_alert_timer`.
- **Current alarm's signal parsing.** A `timeout3` signal is stored into `_timeout2`, and a
  `timeout2` signal is ignored.
- **Positional shutter.** Setting a position stores the string "open".
- **Permission step.** When `get_api` fails, the step raises UnboundLocalError from its
  `finally` clause instead of showing an error.

## Model

| member | source | states |
|---|---|---|
| Values.Strip | custom_components/freebox_home/base_class.py:18 | the result is no longer than the input and neither starts nor ends with whitespace |
| Values.StripIsSlice | custom_components/freebox_home/base_class.py:18 | the result is a slice of the input, and everything cut off at either end is whitespace |
| Values.IntToStringNegative | custom_components/freebox_home/base_class.py:20 | a negative id renders as "-" followed by the decimal form of its magnitude |
| Values.IntToStringInjective | custom_components/freebox_home/base_class.py:20 | distinct node ids render to distinct decimal strings |
| Values.PyEqBool | custom_components/freebox_home/binary_sensor.py:54 | a bool equals a value exactly when the value is that bool or the matching 0/1, and then its truthiness is the bool |
| BaseClass.FirstMatchIndex | custom_components/freebox_home/base_class.py:91 | the index found is the first endpoint matching both name and ep_type; None exactly when nothing matches |
| BaseClass.FindEndpoint | custom_components/freebox_home/base_class.py:91 | the first endpoint whose name and type match, None iff no endpoint matches |
| BaseClass.GetCommandId | custom_components/freebox_home/base_class.py:90-95 | the id of the first matching endpoint (later matches ignored), VALUE_NOT_SET when none matches |
| BaseClass.CommandIdNotSetIff | custom_components/freebox_home/base_class.py:92-94 | with non-negative endpoint ids, the sentinel is returned exactly when no endpoint matches |
| BaseClass.CommandIdSentinelCollision | custom_components/freebox_home/base_class.py:92-95 | an endpoint whose id is -1 is indistinguishable from a missing one |
| BaseClass.GetNodeValue | custom_components/freebox_home/base_class.py:97-102 | the first match's value, VALUE_NOT_SET when nothing matches or the match has no value key |
| BaseClass.UniqueIdOf | custom_components/freebox_home/base_class.py:20-25 | the unique id starts with the node's base id and equals it without a sub node; with one, the rest is "-" + the stripped sub-node name |
| BaseClass.DeviceMaker | custom_components/freebox_home/base_class.py:30-48 | a known category gives Free SAS and its model reference; otherwise Somfy exactly for inherit node::rts or node::ios; the model is empty exactly when neither applies |
| BaseClass.MakeIdentity | custom_components/freebox_home/base_class.py:13-48 | the identity keeps the node's id and firmware, is a device, has the stripped node label as device name, and takes its unique id and (manufacturer, model) from the two rules above |
| BaseClass.UniqueIdsDistinct | custom_components/freebox_home/base_class.py:20 | entities of two different nodes (no sub node) never share a unique id |
| BaseClass.GetDeviceInfo | custom_components/freebox_home/base_class.py:63-74 | None iff the entity is not a device; otherwise its identifiers hold (DOMAIN, id) |
| BaseClass.DeviceInfoAlwaysPresent | custom_components/freebox_home/base_class.py:21-26 | the constructor never clears the device flag, so device info is always present, named after the node |
| BaseClass.ReadResult | custom_components/freebox_home/base_class.py:83-88 | the sentinel for the sentinel id, otherwise the reply's value or VALUE_NOT_SET when it has none |
| BaseClass.SetHomeEndpointValue | custom_components/freebox_home/base_class.py:76-81 | returns false and sends nothing for the sentinel; otherwise sends exactly one write for (node, id, payload) and returns true |
| BaseClass.GetHomeEndpointValue | custom_components/freebox_home/base_class.py:83-88 | returns ReadResult; sends no request for the sentinel and exactly one otherwise |
| Gateway.HomeApi.GetHomeNodes | custom_components/freebox_home/router.py:66 | logs one node-list request |
| Gateway.HomeApi.GetHomeEndpointValue | custom_components/freebox_home/base_class.py:87 | returns the gateway's answer and logs one read request |
| Gateway.HomeApi.SetHomeEndpointValue | custom_components/freebox_home/base_class.py:80 | logs one write request with its payload |
| Registry.MergeKeys | custom_components/freebox_home/router.py:71-75 | a key is present after a refresh iff it was before or some stored fetched node carries it: no key is removed |
| Registry.MergeUntouched | custom_components/freebox_home/router.py:71-75 | an id no stored fetched node carries keeps its old entry |
| Registry.MergeLastWins | custom_components/freebox_home/router.py:75 | among stored fetched nodes with one id, the last one is the entry |
| Registry.MergeOnlyStored | custom_components/freebox_home/router.py:72-75 | every entry is either the old one or a stored fetched node with that id |
| Registry.MergeKeyedById | custom_components/freebox_home/router.py:75 | a refresh keeps every entry under its own node's id |
| Registry.MergeOrder | router.py:82-86 | the key order after a refresh extends the old order: existing keys keep their place |
| Registry.Snapshot.Values | custom_components/freebox_home/binary_sensor.py:20 | `nodes.items()` in iteration order: one node per listed key |
| Registry.MergeKeepsOrderValid | router.py:82-86 | a refresh keeps the registry keyed by id and the order a repetition-free listing of its keys |
| Registry.CollectMembership | custom_components/freebox_home/binary_sensor.py:20-37 | an entity is in the setup's list iff some node of the walk gives rise to it |
| Router.FreeboxRouter.constructor | custom_components/freebox_home/router.py:26-39 | mac is "FbxHome_" + the gateway's mac; empty registry; a 30 s refresh watcher is started |
| Router.FreeboxRouter.UpdateAll | custom_components/freebox_home/router.py:63-75 | a fetch merges only supported categories; InsufficientPermissionsError leaves the registry exactly as it was, and any other error propagates |
| Router.RefreshKeepsNodes | custom_components/freebox_home/router.py:71-75 | a node already in the registry stays there after any refresh |
| Router.RefreshStoresOnlySupported | custom_components/freebox_home/router.py:72-75 | an entry that the refresh brought in has a supported category and comes from the fetch |
| Router.GetApi | custom_components/freebox_home/router.py:86-109 | the first step of every call is an open attempt with the given retry counter |
| Router.GetApiAtMostTwoOpens | custom_components/freebox_home/router.py:99-104 | at most two open attempts, exactly one when called with retry != 0 |
| Router.GetApiFirstCall | custom_components/freebox_home/router.py:96-109 | a first call succeeds iff the first open is accepted, or it is refused for authorisation and the retry is accepted; the token file is removed only in that case |
| Router.GetApiPermissionNotRetried | custom_components/freebox_home/router.py:105-107 | InsufficientPermissionsError propagates after one attempt, with no retry |
| LegacyRouter.SignalDeviceNew | router.py:100-103 | the signal is DOMAIN + "-" + host + "-device-new" |
| LegacyRouter.SignalDeviceNewInjective | router.py:100-103 | routers for different hosts dispatch on different signals |
| LegacyRouter.FreeboxRouter.constructor | router.py:34-50 | host and port from the entry, empty registry |
| LegacyRouter.FreeboxRouter.UpdateNodes | router.py:76-91 | a failed fetch propagates its error with the registry and events unchanged; otherwise every fetched node is stored under its id with no filter, new_device iff some fetched id was unknown, and the device-new signal is dispatched iff new_device |
| LegacyRouter.FreeboxRouter.UpdateAll | router.py:72-74 | exactly update_nodes, its fetch error included |
| LegacyRouter.UpdateStep | router.py:82-86 | one iteration of the loop: the entry is overwritten, a new key is appended to the order, the flag is raised for an unknown id |
| LegacyRouter.UnfilteredStoresLast | router.py:82-86 | without a filter each fetched node is stored, the last of an id winning |
| LegacyRouter.NoNewDeviceSameKeys | router.py:78-86 | a refresh that raises no flag keeps the registry's key set |
| AlarmCommon.AlarmParams.Set | custom_components/freebox_home/alarm_control_panel.py:124-138 | storing a parameter changes that parameter only |
| AlarmCommon.Target | custom_components/freebox_home/alarm_control_panel.py:125-138 | the parameter a signal name is stored into: timeout3 lands in timeout2, timeout2 is not stored, timeout3 is never a target |
| AlarmCommon.ParseFailsIff | custom_components/freebox_home/alarm_control_panel.py:124-138 | parsing raises KeyError iff some parsed signal has no value key |
| AlarmCommon.ApplySignalGet | custom_components/freebox_home/alarm_control_panel.py:124-138 | one signal sets the parameter it targets and leaves the others |
| AlarmCommon.ParseKeepsUnsignalled | custom_components/freebox_home/alarm_control_panel.py:124-138 | a parameter no signal targets keeps its previous value |
| AlarmCommon.ParseLastSignalWins | custom_components/freebox_home/alarm_control_panel.py:124-138 | a parameter ends with the value of the last signal targeting it |
| AlarmCommon.ParseNeverSetsTimeout3 | custom_components/freebox_home/alarm_control_panel.py:133-136 | `_timeout3` is never assigned |
| AlarmCommon.Timeout3LandsInTimeout2 | custom_components/freebox_home/alarm_control_panel.py:133-134 | a timeout3 signal's value ends up in `_timeout2` |
| AlarmCommon.Timeout2Ignored | custom_components/freebox_home/alarm_control_panel.py:124-138 | a timeout2 signal changes nothing |
| AlarmCommon.ParseSignalValues | custom_components/freebox_home/alarm_control_panel.py:124-138 | the parsing loop computes ParseSignals, stopping at the KeyError |
| AlarmCommon.ParsedPrefixFailed | custom_components/freebox_home/alarm_control_panel.py:124-138 | once a KeyError is raised, later signals change nothing |
| AlarmCommon.HasTrueAlarm2Iff | custom_components/freebox_home/alarm_control_panel.py:113-114 | a node counts iff its first alarm2 signal's value == True (True or 1); a node without one never counts |
| AlarmCommon.CurrentFeatures | custom_components/freebox_home/alarm_control_panel.py:118-121 | ARM_AWAY always; ARM_NIGHT and ARM_HOME iff a true alarm2 was found |
| AlarmCommon.LegacyFeatures | alarm_control_panel.py:155-158 | ARM_AWAY always, ARM_NIGHT iff a true alarm2 was found, ARM_HOME never |
| AlarmCommon.ProbeAlarm2 | custom_components/freebox_home/alarm_control_panel.py:113-114 | a node ends the scan as found iff its first alarm2 signal's value == True; a node without an alarm2 signal never ends it |
| AlarmCommon.ProbeValuelessIff | custom_components/freebox_home/alarm_control_panel.py:113-114 | the value lookup raises iff the node's first alarm2 signal has no value key |
| AlarmCommon.ScanResult | custom_components/freebox_home/alarm_control_panel.py:111-116 | the only error the scan can raise is KeyError |
| AlarmCommon.ScanResultSpec | custom_components/freebox_home/alarm_control_panel.py:111-116 | the first node where the scan stops decides it: found if its alarm2 signal is True, KeyError if it has no value; nothing found when it stops nowhere |
| AlarmCommon.ScanWithoutValueless | custom_components/freebox_home/alarm_control_panel.py:111-116 | when no node has a valueless alarm2 signal, the scan raises nothing and finds a node iff one has a true alarm2 signal |
| AlarmCommon.AnyAlarm2InOrder | custom_components/freebox_home/alarm_control_panel.py:112 | some registered node has a true alarm2 signal iff one does in iteration order |
| AlarmCommon.ScanWithoutValuelessFindsAny | custom_components/freebox_home/alarm_control_panel.py:111-116 | over the registry, without a valueless alarm2 signal, the scan's result is whether any node has a true alarm2 signal, whatever the order |
| AlarmCommon.ScanAlarm2 | custom_components/freebox_home/alarm_control_panel.py:111-116 | the loop with its break computes the scan in the registry's iteration order: found at the first true node, KeyError at a valueless node reached before any true one |
| AlarmControlPanel.AlarmStateOf | custom_components/freebox_home/alarm_control_panel.py:159-177 | ARMING, ARMED_AWAY, ARMED_NIGHT, TRIGGERED for their raw states, NameError exactly for alarm2_arming and alarm2_alert_timer, DISARMED otherwise |
| AlarmControlPanel.AlarmStateMatchesLegacy | custom_components/freebox_home/alarm_control_panel.py:163-177 | the two versions agree wherever the current one returns; where it raises, the older one gave ARMING or TRIGGERED |
| AlarmControlPanel.IdleAndNotSetAreDisarmed | custom_components/freebox_home/alarm_control_panel.py:59 | "idle" and the sentinel both show DISARMED |
| AlarmControlPanel.BindFirstSlots | custom_components/freebox_home/alarm_control_panel.py:45-55 | each slot is bound by get_command_id under its own name: the first slot endpoint of that name, VALUE_NOT_SET when there is none |
| AlarmControlPanel.FreeboxAlarm.constructor | custom_components/freebox_home/alarm_control_panel.py:41-61 | first-match bindings, raw state "idle" (so DISARMED), no watcher, ARM_AWAY only |
| AlarmControlPanel.FreeboxAlarm.UpdateParameters | custom_components/freebox_home/alarm_control_panel.py:106-138 | the name from the label first; a KeyError from the scan leaves features and parameters untouched; otherwise features from the scan result, parameters parsed, KeyError when a parsed signal has no value |
| AlarmControlPanel.FreeboxAlarm.AsyncUpdate | custom_components/freebox_home/alarm_control_panel.py:99-104 | stores the read raw state; cancels the watcher iff the read is "idle" and a handle exists (the handle stays); KeyError and nothing refreshed when the node left the registry; otherwise exactly update_parameters, its KeyError included |
| AlarmControlPanel.FreeboxAlarm.SyncUpdateDuringArming | custom_components/freebox_home/alarm_control_panel.py:94-97 | stores the read raw state and writes state; name, features and parameters unchanged |
| AlarmControlPanel.FreeboxAlarm.AlarmDisarm | custom_components/freebox_home/alarm_control_panel.py:73-77 | writes the off slot; schedules a forced refresh iff the write was sent; raw state, name, features and parameters unchanged |
| AlarmControlPanel.FreeboxAlarm.AlarmArmAway | custom_components/freebox_home/alarm_control_panel.py:79-83 | writes the alarm1 slot; starts a 1 s watcher iff the write was sent; name, features and parameters unchanged |
| AlarmControlPanel.FreeboxAlarm.AlarmArmNight | custom_components/freebox_home/alarm_control_panel.py:88-92 | writes the alarm2 slot; starts a 1 s watcher iff the write was sent; name, features and parameters unchanged |
| AlarmControlPanel.FreeboxAlarm.AlarmArmHome | custom_components/freebox_home/alarm_control_panel.py:85-86 | exactly arm night |
| AlarmControlPanel.NewAlarm | custom_components/freebox_home/alarm_control_panel.py:41-62 | a new alarm shows DISARMED with the label as name; a KeyError from the scan leaves ARM_AWAY and no parameters; otherwise features and parameters from update_parameters |
| LegacyAlarmControlPanel.LegacyAlarmState | alarm_control_panel.py:180-196 | total: both arming states ARMING, alarm1_armed ARMED_AWAY, alarm2_armed ARMED_NIGHT, the alert states TRIGGERED, anything else DISARMED |
| LegacyAlarmControlPanel.LastSlotId | alarm_control_panel.py:71-93 | the id of the last slot endpoint with the name, VALUE_NOT_SET when there is none |
| LegacyAlarmControlPanel.Bind | alarm_control_panel.py:72-93 | a recognised slot overwrites its own field only |
| LegacyAlarmControlPanel.BindSlots | alarm_control_panel.py:59-93 | the binding loop leaves each field at the last matching slot's id, or VALUE_NOT_SET |
| LegacyAlarmControlPanel.LastAndFirstAgree | alarm_control_panel.py:71-95 | with one slot per name, last-match binding equals get_command_id's first match |
| LegacyAlarmControlPanel.FreeboxAlarm.constructor | alarm_control_panel.py:55-99 | last-match slot bindings, first-match state signal, state DISARMED via set_state("idle"), no watcher |
| LegacyAlarmControlPanel.FreeboxAlarm.SetState | alarm_control_panel.py:180-196 | the state becomes the mapping of the raw value; nothing else changes |
| LegacyAlarmControlPanel.FreeboxAlarm.UpdateParameters | alarm_control_panel.py:145-178 | the scan comes first, so its KeyError changes nothing; otherwise features from the scan result (never ARM_HOME), name, parameters parsed, KeyError on a missing value |
| LegacyAlarmControlPanel.FreeboxAlarm.AsyncUpdate | alarm_control_panel.py:137-142 | the state is not changed; cancels the watcher iff the read is "idle" and a handle exists; KeyError and nothing refreshed when the node left the registry; otherwise exactly update_parameters |
| LegacyAlarmControlPanel.FreeboxAlarm.SyncUpdateDuringArming | alarm_control_panel.py:133-135 | the state becomes the mapping of the read, and state is written; name, features and parameters unchanged |
| LegacyAlarmControlPanel.FreeboxAlarm.AlarmDisarm | alarm_control_panel.py:111-115 | writes the off slot; schedules a forced refresh iff the write was sent; state, name, features and parameters unchanged |
| LegacyAlarmControlPanel.FreeboxAlarm.AlarmArmAway | alarm_control_panel.py:117-121 | writes the alarm1 slot; starts a watcher iff the write was sent; name, features and parameters unchanged |
| LegacyAlarmControlPanel.FreeboxAlarm.AlarmArmNight | alarm_control_panel.py:126-130 | writes the alarm2 slot; starts a watcher iff the write was sent; name, features and parameters unchanged |
| LegacyAlarmControlPanel.FreeboxAlarm.AlarmArmHome | alarm_control_panel.py:123-124 | exactly arm night |
| LegacyAlarmControlPanel.NewAlarm | alarm_control_panel.py:55-100 | a new alarm is DISARMED with the label as name; a KeyError from the scan leaves ARM_AWAY and no parameters; otherwise features and parameters from update_parameters |
| Cover.ConvertState | cover.py:87-93 | closed iff the read is truthy, open iff it is falsy but not None, None iff None |
| Cover.IsClosedBasic | cover.py:56-63 | False exactly for open, True exactly for closed, None otherwise |
| Cover.UpdateThenIsClosed | cover.py:80-93 | after an update the shutter reports closed iff the read was truthy, and nothing for a None read |
| Cover.SentinelReadsClosed | cover.py:87-89 | the sentinel -1 is truthy, so a shutter without a state signal reports closed |
| Cover.RawStateNotClassified | cover.py:42 | a non-string raw state stored at construction leaves is_closed None |
| Cover.FreeboxBasicShutter.constructor | cover.py:35-42 | commands from show_endpoints, raw state from the state signal |
| Cover.FreeboxBasicShutter.OpenCover | cover.py:65-68 | writes the up slot and then shows open, whether or not the write was sent |
| Cover.FreeboxBasicShutter.CloseCover | cover.py:70-73 | writes the down slot and then shows closed, whether or not the write was sent |
| Cover.FreeboxBasicShutter.StopCover | cover.py:75-78 | writes the stop slot and then shows None |
| Cover.FreeboxBasicShutter.AsyncUpdate | cover.py:80-84 | KeyError with no request when the node left the registry; otherwise the name is refreshed and the state is convert_state of the read |
| Cover.IsClosedPositional | cover.py:120-125 | closed iff the stored state == 100 |
| Cover.SetPositionNeverClosed | cover.py:127-130 | after setting any position the shutter reports open |
| Cover.FreeboxShutter.constructor | cover.py:97-106 | up, down and position are all the position_set slot; state from the state signal |
| Cover.FreeboxShutter.SetCoverPosition | cover.py:127-130 | writes the position, then stores "open" |
| Cover.FreeboxShutter.OpenCover | cover.py:132-134 | writes 0 to the position slot and leaves the state |
| Cover.FreeboxShutter.CloseCover | cover.py:136-138 | writes 100 to the position slot and leaves the state |
| Cover.FreeboxShutter.StopCover | cover.py:140-143 | writes the stop slot and sets the position to None |
| Cover.FreeboxShutter.AsyncUpdate | cover.py:145-149 | KeyError when the node left the registry; otherwise the state is the read of the position_set signal, closed iff it is 100 |
| BinarySensor.PollAfterBinaryRead | custom_components/freebox_home/binary_sensor.py:52-56 | after any boolean (or 0/1) read the flag is `not read`, whatever it was before |
| BinarySensor.PollChangesIff | custom_components/freebox_home/binary_sensor.py:54-56 | the flag changes exactly when it equalled the read |
| BinarySensor.PollNonBinaryKeeps | custom_components/freebox_home/binary_sensor.py:53-56 | a read equal to neither bool, VALUE_NOT_SET included, leaves the flag unchanged |
| BinarySensor.PollRepeatQuiet | custom_components/freebox_home/binary_sensor.py:52-56 | a second identical binary read neither changes the flag nor writes state |
| BinarySensor.EntitiesFor | custom_components/freebox_home/binary_sensor.py:21-35 | a node gives a Pir iff pir, a Dws iff dws, and independently a cover sensor iff its first cover signal has a non-None value |
| BinarySensor.AsyncSetupEntry | custom_components/freebox_home/binary_sensor.py:16-37 | the setup loop collects EntitiesFor over the registry in order |
| BinarySensor.SetupPlansIff | custom_components/freebox_home/binary_sensor.py:20-35 | an entity of a kind is created for a node iff the node is registered and qualifies for that kind |
| BinarySensor.SetupPirDwsExclusive | custom_components/freebox_home/binary_sensor.py:21-24 | a node never yields both a Pir and a Dws |
| BinarySensor.FreeboxPir.Pir | custom_components/freebox_home/binary_sensor.py:45-50 | trigger signal from type.endpoints, flag False, 1 s watcher, class MOTION |
| BinarySensor.FreeboxPir.Dws | custom_components/freebox_home/binary_sensor.py:80-87 | the same construction as Pir, class DOOR |
| BinarySensor.FreeboxPir.AsyncUpdatePir | custom_components/freebox_home/binary_sensor.py:52-56 | one guarded read; the new flag is PollDetection of it; state is written iff the flag changed |
| BinarySensor.FreeboxPir.WillRemove | custom_components/freebox_home/binary_sensor.py:73-76 | cancels the watcher |
| BinarySensor.FreeboxSensorCover.constructor | custom_components/freebox_home/binary_sensor.py:128-135 | sub node from type.endpoints, command from show_endpoints, `_open` False, 3 s watcher |
| BinarySensor.FreeboxSensorCover.AsyncUpdatePir | custom_components/freebox_home/binary_sensor.py:137-139 | `_open` becomes the read and state is written every time |
| BinarySensor.FreeboxSensorCover.WillRemove | custom_components/freebox_home/binary_sensor.py:156-158 | cancels the watcher |
| BinarySensor.SentinelCoverReadsOn | custom_components/freebox_home/binary_sensor.py:133-144 | a cover sensor without a cover command reads the truthy sentinel and shows on |
| LegacyBinarySensor.LegacyEntitiesFor | binary_sensor.py:20-24 | a node gives a Pir iff pir and a Dws iff dws, nothing else |
| LegacyBinarySensor.CurrentSetupExtendsLegacy | binary_sensor.py:20-24 | the current setup creates the same entities per node, followed at most by a cover sensor |
| LegacyBinarySensor.AsyncSetupEntry | binary_sensor.py:16-26 | the setup loop collects LegacyEntitiesFor over the registry in order |
| LegacyBinarySensor.LegacySetupPlansIff | binary_sensor.py:20-24 | a Pir or Dws is created for a node iff it is registered with that category; no cover sensor ever |
| LegacyBinarySensor.FreeboxDetector.Pir | binary_sensor.py:31-37 | trigger from type.endpoints, flag False, class MOTION |
| LegacyBinarySensor.FreeboxDetector.Dws | binary_sensor.py:70-76 | same as Pir, class DOOR |
| LegacyBinarySensor.FreeboxDetector.AsyncUpdatePir | binary_sensor.py:39-43 | always one request, even for the sentinel id; KeyError and no change when the reply has no value; otherwise the same flag rule as the current version |
| LegacyBinarySensor.FreeboxDetector.WillRemove | binary_sensor.py:60-63 | cancels the watcher |
| LegacyBinarySensor.LegacyPollAgrees | binary_sensor.py:39-43 | for a valued reply and a real command id, both versions compute the same flag |
| Sensor.SensorOf | custom_components/freebox_home/sensor.py:13-22 | the battery entity is built for the node's own id |
| Sensor.SetupOnlyBattery | custom_components/freebox_home/sensor.py:10-13 | every entity created is the one built from a registered node with a non-None battery value |
| Sensor.SetupEveryBattery | custom_components/freebox_home/sensor.py:10-13 | every registered node with a non-None battery value gets its entity |
| Sensor.SetupBatteryIff | custom_components/freebox_home/sensor.py:10-13 | an entity is created exactly for the registered nodes whose first battery signal has a non-None value |
| Sensor.BatteryIdentity | custom_components/freebox_home/sensor.py:13-22 | the unique id is the node's with "-battery" appended; the name is the battery endpoint's label |
| Sensor.State | custom_components/freebox_home/sensor.py:29-32 | KeyError once the node left the registry; otherwise the first battery signal's value in the current snapshot, VALUE_NOT_SET when absent |
| Sensor.SetupStateIsBattery | sensor.py:33-36 | right after setup the state is the non-None battery value that qualified the node |
| Sensor.StateNotSetWithoutBattery | sensor.py:36 | without a battery signal in the snapshot the state is VALUE_NOT_SET |
| ConfigFlow.FlowUniqueId | custom_components/freebox_home/config_flow.py:51 | the unique id is the host followed by "_freebox_home" |
| ConfigFlow.FlowUniqueIdInjective | custom_components/freebox_home/config_flow.py:51 | two hosts never claim the same unique id |
| ConfigFlow.ZeroconfAbort | custom_components/freebox_home/config_flow.py:138-145 | a discovery passes iff device_type is present and starts with "FreeboxServer7" and api_domain and https_port are present; the first failing check names the abort |
| ConfigFlow.LinkErrorKey | custom_components/freebox_home/config_flow.py:91-101 | AuthorizationError gives "register_failed", HttpRequestError "cannot_connect", any other "unknown" |
| ConfigFlow.LinkStep | custom_components/freebox_home/config_flow.py:61-102 | without input the link form; the permission form iff get_api and the config read succeed; otherwise the link form with the mapped error |
| ConfigFlow.LinkRegisterFailedIff | custom_components/freebox_home/config_flow.py:91-93 | the link form reports "register_failed" iff authorisation was refused on both of get_api's attempts |
| ConfigFlow.PermissionStep | custom_components/freebox_home/config_flow.py:107-128 | an entry is created iff get_api and the node fetch succeed; a fetch error shows "unknown"; a get_api error raises UnboundLocalError |
| ConfigFlow.PermissionErrorsAreUnknown | custom_components/freebox_home/config_flow.py:118-126 | InsufficientPermissionsError from the fetch shows "unknown"; from get_api it ends in UnboundLocalError |
| ConfigFlow.FreeboxFlowHandler.constructor | custom_components/freebox_home/config_flow.py:21-24 | host and port start unset |
| ConfigFlow.FreeboxFlowHandler.StepUser | custom_components/freebox_home/config_flow.py:41-54 | without input the user form and no field set; with input host, port and unique id host + "_freebox_home", abort if configured, else the link form |
| ConfigFlow.FreeboxFlowHandler.StepImport | custom_components/freebox_home/config_flow.py:131-133 | exactly the user step |
| ConfigFlow.FreeboxFlowHandler.StepZeroconf | custom_components/freebox_home/config_flow.py:136-146 | aborts on each failed check; host and port are assigned once the device type passes; otherwise continues to the user step with them |

## Left out

- I/O, waiting and logging are not modelled:
  - the token file and `remove_config` are file I/O; get_api's removal of the token file appears only as a step;
  - `time.sleep` and `async_block_till_done` only wait;
  - the `_LOGGER` calls only log.
- Host scheduling is not modelled. Timers, `async_write_ha_state` and `schedule_update_ha_state` appear only as recorded events.
- The gateway client's own behaviour is outside the model, because it is a foreign library: `Freepybox`, `open`, `system.get_config`, `close`.
  - Its exception classes are taken to be unrelated to each other.
  - An error raised by `fbx.close()` inside the permission step's `finally` clause is not modelled.
- The alarm and cover platforms' `async_setup_entry` are not modelled. Each is a category test around a constructor call.
- Router pieces not modelled:
  - the current router's `close`;
  - the older router's `setup` and its non-retrying `get_api`;
  - the platform forwarding in both `__init__.py` files.
- `switch.py` is not modelled: its state is persisted through files.
- The older root files import a `base_class` module that is not part of this model. The current base class stands in for it.
- The older alarm file's import block is not valid Python, and it names `SUPPORT_ALARM_*` constants it never defines. Its logic is modelled with features as a set.
- Entity properties that only return a constant are not modelled as members: `should_poll`, `device_class` (kept as a field), unit, `available`.
- The voluptuous form schemas are UI and are not modelled.
- JSON access failures outside the named error paths are not modelled, because every node in the model is complete: a node or endpoint missing `id`, `label`, `name`, `ep_type`, `category` or `props`.
- Values.Strip: covers the whitespace of `str.isspace` for single code points. Unicode normalisation does not arise.
- Cover.FreeboxShutter.SetCoverPosition: positions are integers. Float positions are not modelled.
- ConfigFlow.FreeboxFlowHandler.StepZeroconf: zeroconf properties are a map from key to string. A key announced without a value counts as absent.
