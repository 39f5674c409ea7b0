/** What both alarm adapters (custom_components/freebox_home/alarm_control_panel.py
    and the older alarm_control_panel.py) share: the host-side states and
    features, the eleven command slots, the parsing of the node's signal
    values in `update_parameters`, and the registry-wide search for a node
    whose `alarm2` signal is True. */
module AlarmCommon {
  import opened Values
  import opened BaseClass
  import opened Registry

  /** The host's alarm panel states the adapters report. */
  datatype AlarmState = Disarmed | Arming | ArmedAway | ArmedNight | Triggered

  /** The host's alarm panel features. */
  datatype Feature = ArmAway | ArmNight | ArmHome

  // ---------------------------------------------------------------------
  // Command slots

  /** The eleven command slots of an alarm node. */
  datatype Slot =
    | TriggerSlot | Alarm1Slot | Alarm2Slot | SkipSlot | OffSlot | PinSlot
    | SoundSlot | VolumeSlot | Timeout1Slot | Timeout2Slot | Timeout3Slot

  /** The endpoint name of each slot. */
  function SlotName(s: Slot): string {
    match s
    case TriggerSlot => "trigger"
    case Alarm1Slot => "alarm1"
    case Alarm2Slot => "alarm2"
    case SkipSlot => "skip"
    case OffSlot => "off"
    case PinSlot => "pin"
    case SoundSlot => "sound"
    case VolumeSlot => "volume"
    case Timeout1Slot => "timeout1"
    case Timeout2Slot => "timeout2"
    case Timeout3Slot => "timeout3"
  }

  /** The eleven `_command_*` slot ids of an alarm. */
  datatype SlotBindings = SlotBindings(
    trigger: int, alarm1: int, alarm2: int, skip: int, off: int, pin: int,
    sound: int, volume: int, timeout1: int, timeout2: int, timeout3: int)
  {
    /** The field bound to a slot. */
    function Get(s: Slot): int {
      match s
      case TriggerSlot => trigger
      case Alarm1Slot => alarm1
      case Alarm2Slot => alarm2
      case SkipSlot => skip
      case OffSlot => off
      case PinSlot => pin
      case SoundSlot => sound
      case VolumeSlot => volume
      case Timeout1Slot => timeout1
      case Timeout2Slot => timeout2
      case Timeout3Slot => timeout3
    }
  }

  // ---------------------------------------------------------------------
  // Signal values parsed by update_parameters

  /** The attributes update_parameters assigns; None while never assigned. */
  datatype AlarmParams = AlarmParams(
    pin: Option<Value>, sound: Option<Value>, highVolume: Option<Value>,
    timeout1: Option<Value>, timeout2: Option<Value>, timeout3: Option<Value>,
    battery: Option<Value>)
  {
    function Get(f: ParamField): Option<Value> {
      match f
      case Pin => pin
      case Sound => sound
      case HighVolume => highVolume
      case Timeout1 => timeout1
      case Timeout2 => timeout2
      case Timeout3 => timeout3
      case Battery => battery
    }

    function Set(f: ParamField, v: Value): (r: AlarmParams)
      ensures r.Get(f) == Some(v)
      ensures forall g | g != f :: r.Get(g) == Get(g)
    {
      match f
      case Pin => this.(pin := Some(v))
      case Sound => this.(sound := Some(v))
      case HighVolume => this.(highVolume := Some(v))
      case Timeout1 => this.(timeout1 := Some(v))
      case Timeout2 => this.(timeout2 := Some(v))
      case Timeout3 => this.(timeout3 := Some(v))
      case Battery => this.(battery := Some(v))
    }
  }

  datatype ParamField = Pin | Sound | HighVolume | Timeout1 | Timeout2 | Timeout3 | Battery

  const NoParams: AlarmParams := AlarmParams(None, None, None, None, None, None, None)

  /** Which attribute the if/elif chain assigns for a signal of that name.
      The chain tests "timeout3" twice, the first time assigning `_timeout2`,
      and never tests "timeout2". */
  function Target(name: string): (r: Option<ParamField>)
    ensures r != Some(Timeout3)
    ensures name == "timeout2" ==> r.None?
    ensures name == "timeout3" ==> r == Some(Timeout2)
  {
    if name == "pin" then Some(Pin)
    else if name == "sound" then Some(Sound)
    else if name == "volume" then Some(HighVolume)
    else if name == "timeout1" then Some(Timeout1)
    else if name == "timeout3" then Some(Timeout2)
    else if name == "battery" then Some(Battery)
    else None
  }

  /** A signal endpoint the chain assigns to field f. */
  predicate IsSignalFor(e: Endpoint, f: ParamField) {
    e.epType == SIGNAL && Target(e.name) == Some(f)
  }

  /** A signal endpoint the chain reads `endpoint["value"]` of. */
  predicate IsParsed(e: Endpoint) {
    e.epType == SIGNAL && Target(e.name).Some?
  }

  /** The attributes after a walk, and whether the walk stopped on a KeyError
      (a parsed signal without a "value" key); assignments made before the
      error stay. */
  datatype ParseResult = ParseResult(params: AlarmParams, failed: bool)

  function ApplySignal(p: AlarmParams, e: Endpoint): ParseResult {
    if !IsParsed(e) then ParseResult(p, false)
    else if e.value.None? then ParseResult(p, true)
    else ParseResult(p.Set(Target(e.name).value, e.value.value), false)
  }

  /** The walk of update_parameters over the node's show_endpoints. */
  function ParseSignals(eps: seq<Endpoint>, p0: AlarmParams): ParseResult
    decreases |eps|
  {
    if eps == [] then ParseResult(p0, false)
    else
      var r := ParseSignals(eps[..|eps| - 1], p0);
      if r.failed then r else ApplySignal(r.params, eps[|eps| - 1])
  }

  /** `i` is the last signal endpoint assigned to field f. */
  predicate IsLastSignalFor(eps: seq<Endpoint>, f: ParamField, i: int) {
    && 0 <= i < |eps|
    && IsSignalFor(eps[i], f)
    && forall j | i < j < |eps| :: !IsSignalFor(eps[j], f)
  }

  predicate NoSignalFor(eps: seq<Endpoint>, f: ParamField) {
    forall j | 0 <= j < |eps| :: !IsSignalFor(eps[j], f)
  }

  /** The walk raises KeyError iff some parsed signal has no "value" key. */
  lemma {:induction false} ParseFailsIff(eps: seq<Endpoint>, p0: AlarmParams)
    ensures ParseSignals(eps, p0).failed <==>
      exists i :: 0 <= i < |eps| && IsParsed(eps[i]) && eps[i].value.None?
    decreases |eps|
  {
    if eps != [] {
      var init := ParseSignals(eps[..|eps| - 1], p0);
      ParseFailsIff(eps[..|eps| - 1], p0);
      if init.failed {
        var i :| 0 <= i < |eps| - 1 && IsParsed(eps[..|eps| - 1][i]) && eps[..|eps| - 1][i].value.None?;
        assert IsParsed(eps[i]) && eps[i].value.None?;
      } else {
        forall i | 0 <= i < |eps| - 1 ensures !(IsParsed(eps[i]) && eps[i].value.None?) {
          assert eps[i] == eps[..|eps| - 1][i];
        }
      }
    }
  }

  /** One step of the walk: a signal for f sets f to its value, any other
      endpoint leaves f alone. */
  lemma ApplySignalGet(p: AlarmParams, e: Endpoint, f: ParamField)
    requires !ApplySignal(p, e).failed
    ensures IsSignalFor(e, f) ==> e.value == ApplySignal(p, e).params.Get(f)
    ensures !IsSignalFor(e, f) ==> ApplySignal(p, e).params.Get(f) == p.Get(f)
  {
  }

  /** When the walk completes, an attribute no signal is assigned to keeps
      its previous value. */
  lemma {:induction false} ParseKeepsUnsignalled(eps: seq<Endpoint>, p0: AlarmParams, f: ParamField)
    requires !ParseSignals(eps, p0).failed
    requires NoSignalFor(eps, f)
    ensures ParseSignals(eps, p0).params.Get(f) == p0.Get(f)
    decreases |eps|
  {
    if eps != [] {
      var init := eps[..|eps| - 1];
      var r0 := ParseSignals(init, p0);
      assert !r0.failed;
      assert NoSignalFor(init, f) by {
        forall j | 0 <= j < |init| ensures !IsSignalFor(init[j], f) {
          assert init[j] == eps[j];
        }
      }
      ParseKeepsUnsignalled(init, p0, f);
      ApplySignalGet(r0.params, eps[|eps| - 1], f);
    }
  }

  /** When the walk completes, an attribute holds the value of the last
      signal assigned to it. */
  lemma {:induction false} ParseLastSignalWins(eps: seq<Endpoint>, p0: AlarmParams, f: ParamField, i: int)
    requires !ParseSignals(eps, p0).failed
    requires IsLastSignalFor(eps, f, i)
    ensures eps[i].value == ParseSignals(eps, p0).params.Get(f)
    decreases |eps|
  {
    var init := eps[..|eps| - 1];
    var last := eps[|eps| - 1];
    var r0 := ParseSignals(init, p0);
    assert !r0.failed;
    ApplySignalGet(r0.params, last, f);
    if i < |eps| - 1 {
      assert !IsSignalFor(last, f);
      assert IsLastSignalFor(init, f, i) by {
        forall j | i < j < |init| ensures !IsSignalFor(init[j], f) {
          assert init[j] == eps[j];
        }
      }
      ParseLastSignalWins(init, p0, f, i);
    }
  }

  /** `_timeout3` is never assigned, whatever the node reports. */
  lemma {:induction false} ParseNeverSetsTimeout3(eps: seq<Endpoint>, p0: AlarmParams)
    ensures ParseSignals(eps, p0).params.timeout3 == p0.timeout3
    decreases |eps|
  {
    if eps != [] {
      ParseNeverSetsTimeout3(eps[..|eps| - 1], p0);
    }
  }

  /** A timeout3 signal lands in `_timeout2`. */
  lemma Timeout3LandsInTimeout2(id: int, lbl: string, v: Value, p0: AlarmParams)
    ensures var r := ParseSignals([Endpoint(id, SIGNAL, "timeout3", lbl, Some(v))], p0);
      !r.failed && r.params.timeout2 == Some(v) && r.params.timeout3 == p0.timeout3
  {
    var eps := [Endpoint(id, SIGNAL, "timeout3", lbl, Some(v))];
    assert eps[..0] == [];
  }

  /** A timeout2 signal is ignored: appending one changes nothing. */
  lemma Timeout2Ignored(eps: seq<Endpoint>, e: Endpoint, p0: AlarmParams)
    requires e.name == "timeout2"
    ensures ParseSignals(eps + [e], p0) == ParseSignals(eps, p0)
  {
    assert (eps + [e])[..|eps + [e]| - 1] == eps;
  }

  /** The loop of update_parameters over the signal endpoints. */
  method ParseSignalValues(eps: seq<Endpoint>, p0: AlarmParams) returns (r: ParseResult)
    ensures r == ParseSignals(eps, p0)
  {
    var p := p0;
    var i := 0;
    while i < |eps|
      invariant 0 <= i <= |eps|
      invariant ParseSignals(eps[..i], p0) == ParseResult(p, false)
    {
      var e := eps[i];
      assert eps[..i + 1][..i] == eps[..i];
      if e.epType == SIGNAL {
        var f := Target(e.name);
        if f.Some? {
          if e.value.None? {
            // endpoint["value"] raises KeyError; earlier assignments stay
            ParsedPrefixFailed(eps, p0, i + 1);
            return ParseResult(p, true);
          }
          p := p.Set(f.value, e.value.value);
        }
      }
      i := i + 1;
    }
    assert eps[..i] == eps;
    return ParseResult(p, false);
  }

  /** Once the walk of a prefix has failed, the whole walk has the same result. */
  lemma {:induction false} ParsedPrefixFailed(eps: seq<Endpoint>, p0: AlarmParams, k: int)
    requires 0 <= k <= |eps| && ParseSignals(eps[..k], p0).failed
    ensures ParseSignals(eps, p0) == ParseSignals(eps[..k], p0)
    decreases |eps| - k
  {
    if k < |eps| {
      assert eps[..k + 1][..k] == eps[..k];
      ParsedPrefixFailed(eps, p0, k + 1);
    } else {
      assert eps[..k] == eps;
    }
  }

  // ---------------------------------------------------------------------
  // Registry-wide alarm2 scan

  /** The node's first `alarm2` signal exists and its value `== True` (so the
      bool True or the integer 1). A missing "value" key counts as not True. */
  predicate HasTrueAlarm2(n: Node) {
    match FindEndpoint(n.showEndpoints, SIGNAL, "alarm2")
    case None => false
    case Some(e) => e.value.Some? && PyEq(e.value.value, VBool(true))
  }

  /** Only the first alarm2 signal counts, and only True or 1 is enough. */
  lemma HasTrueAlarm2Iff(n: Node)
    ensures HasTrueAlarm2(n) <==>
      exists i :: IsFirstMatch(n.showEndpoints, SIGNAL, "alarm2", i) &&
        n.showEndpoints[i].value in {Some(VBool(true)), Some(VInt(1))}
    ensures NoMatch(n.showEndpoints, SIGNAL, "alarm2") ==> !HasTrueAlarm2(n)
  {
    var eps := n.showEndpoints;
    var k := FirstMatchIndex(eps, SIGNAL, "alarm2");
    if k.Some? {
      var e := eps[k.value];
      if e.value.Some? {
        PyEqBool(true, e.value.value);
      }
      forall i | IsFirstMatch(eps, SIGNAL, "alarm2", i) ensures i == k.value {
        assert !(i < k.value) && !(k.value < i);
      }
    }
  }

  predicate AnyAlarm2(nodes: map<int, Node>) {
    exists id | id in nodes :: HasTrueAlarm2(nodes[id])
  }

  /** The feature set the current adapter advertises. */
  function CurrentFeatures(hasAlarm2: bool): (r: set<Feature>)
    ensures ArmAway in r
    ensures ArmNight in r <==> hasAlarm2
    ensures ArmHome in r <==> hasAlarm2
  {
    if hasAlarm2 then {ArmAway, ArmNight, ArmHome} else {ArmAway}
  }

  /** The feature set the older adapter advertises: never ArmHome. */
  function LegacyFeatures(hasAlarm2: bool): (r: set<Feature>)
    ensures ArmAway in r && ArmHome !in r
    ensures ArmNight in r <==> hasAlarm2
  {
    if hasAlarm2 then {ArmAway, ArmNight} else {ArmAway}
  }

  /** What the scan learns from one node: its first alarm2 signal is True,
      has no "value" key (the lookup raises KeyError), or neither. */
  datatype Alarm2Probe = TrueAlarm2 | ValuelessAlarm2 | NotTrueAlarm2

  function ProbeAlarm2(n: Node): (r: Alarm2Probe)
    ensures r == TrueAlarm2 <==> HasTrueAlarm2(n)
    ensures NoMatch(n.showEndpoints, SIGNAL, "alarm2") ==> r == NotTrueAlarm2
  {
    match FindEndpoint(n.showEndpoints, SIGNAL, "alarm2")
    case None => NotTrueAlarm2
    case Some(e) =>
      if e.value.None? then ValuelessAlarm2
      else if PyEq(e.value.value, VBool(true)) then TrueAlarm2
      else NotTrueAlarm2
  }

  /** The lookup raises exactly when the node's first alarm2 signal has no
      value. */
  lemma ProbeValuelessIff(n: Node)
    ensures ProbeAlarm2(n) == ValuelessAlarm2 <==>
      exists i :: IsFirstMatch(n.showEndpoints, SIGNAL, "alarm2", i) && n.showEndpoints[i].value.None?
  {
    var k := FirstMatchIndex(n.showEndpoints, SIGNAL, "alarm2");
    if k.Some? {
      assert IsFirstMatch(n.showEndpoints, SIGNAL, "alarm2", k.value);
    }
  }

  /** The scan over nodes in iteration order: it stops at the first node
      whose alarm2 signal is True, or raises at the first one without a
      value, whichever comes first. */
  function ScanResult(ns: seq<Node>): (r: Outcome<bool>)
    ensures r.Raised? ==> r.error == KeyError
    decreases |ns|
  {
    if ns == [] then Ok(false)
    else match ProbeAlarm2(ns[0])
      case TrueAlarm2 => Ok(true)
      case ValuelessAlarm2 => Raised(KeyError)
      case NotTrueAlarm2 => ScanResult(ns[1..])
  }

  /** `i` is the first node at which the scan stops. */
  predicate StopsAt(ns: seq<Node>, i: int) {
    && 0 <= i < |ns|
    && ProbeAlarm2(ns[i]) != NotTrueAlarm2
    && forall j | 0 <= j < i :: ProbeAlarm2(ns[j]) == NotTrueAlarm2
  }

  /** The scan's outcome is decided by the first node where it stops: found
      there, or a KeyError there; it finds nothing only when it stops
      nowhere. */
  lemma {:induction false} ScanResultSpec(ns: seq<Node>)
    ensures forall i | StopsAt(ns, i) ::
      ScanResult(ns) == if ProbeAlarm2(ns[i]) == TrueAlarm2 then Ok(true) else Raised(KeyError)
    ensures (forall i | 0 <= i < |ns| :: ProbeAlarm2(ns[i]) == NotTrueAlarm2) ==> ScanResult(ns) == Ok(false)
    decreases |ns|
  {
    if ns != [] {
      var tail := ns[1..];
      ScanResultSpec(tail);
      forall i | StopsAt(ns, i)
        ensures ScanResult(ns) == if ProbeAlarm2(ns[i]) == TrueAlarm2 then Ok(true) else Raised(KeyError)
      {
        if i > 0 {
          assert ProbeAlarm2(ns[0]) == NotTrueAlarm2;
          assert StopsAt(tail, i - 1) by {
            forall j | 0 <= j < i - 1 ensures ProbeAlarm2(tail[j]) == NotTrueAlarm2 {
              assert tail[j] == ns[j + 1];
            }
          }
        }
      }
      if forall i | 0 <= i < |ns| :: ProbeAlarm2(ns[i]) == NotTrueAlarm2 {
        assert ProbeAlarm2(ns[0]) == NotTrueAlarm2;
        assert forall i | 0 <= i < |tail| :: tail[i] == ns[i + 1];
      }
    }
  }

  /** Over a sequence without a valueless alarm2 signal, the scan finds a
      node exactly when one has a true alarm2 signal. */
  lemma ScanWithoutValueless(ns: seq<Node>)
    requires forall i | 0 <= i < |ns| :: ProbeAlarm2(ns[i]) != ValuelessAlarm2
    ensures ScanResult(ns) == Ok(exists i | 0 <= i < |ns| :: HasTrueAlarm2(ns[i]))
  {
    ScanResultSpec(ns);
    if !exists i :: StopsAt(ns, i) {
      forall k | 0 <= k < |ns| ensures ProbeAlarm2(ns[k]) == NotTrueAlarm2 {
        NowhereStopped(ns, k);
      }
    }
  }

  /** Where the scan stops nowhere, it passes over every node. */
  lemma {:induction false} NowhereStopped(ns: seq<Node>, k: int)
    requires forall i :: !StopsAt(ns, i)
    requires 0 <= k < |ns|
    ensures ProbeAlarm2(ns[k]) == NotTrueAlarm2
    decreases k
  {
    forall j | 0 <= j < k ensures ProbeAlarm2(ns[j]) == NotTrueAlarm2 {
      NowhereStopped(ns, j);
    }
    assert !StopsAt(ns, k);
  }

  /** Where no registered node's first alarm2 signal lacks a value, the scan
      raises nothing and finds a node exactly when some node has a true
      alarm2 signal, whatever the order. */
  lemma ScanWithoutValuelessFindsAny(reg: Snapshot)
    requires reg.Valid()
    requires forall id | id in reg.nodes :: ProbeAlarm2(reg.nodes[id]) != ValuelessAlarm2
    ensures ScanResult(reg.Values()) == Ok(AnyAlarm2(reg.nodes))
  {
    var ns := reg.Values();
    forall i | 0 <= i < |ns| ensures ProbeAlarm2(ns[i]) != ValuelessAlarm2 {
      assert reg.order[i] in reg.nodes;
    }
    ScanWithoutValueless(ns);
    AnyAlarm2InOrder(reg);
  }

  /** Some registered node has a true alarm2 signal iff one does in
      iteration order. */
  lemma AnyAlarm2InOrder(reg: Snapshot)
    requires reg.Valid()
    ensures AnyAlarm2(reg.nodes) == exists i | 0 <= i < |reg.Values()| :: HasTrueAlarm2(reg.Values()[i])
  {
    var ns := reg.Values();
    if AnyAlarm2(reg.nodes) {
      var id :| id in reg.nodes && HasTrueAlarm2(reg.nodes[id]);
      var k :| 0 <= k < |reg.order| && reg.order[k] == id;
      assert HasTrueAlarm2(ns[k]);
    }
    if i :| 0 <= i < |ns| && HasTrueAlarm2(ns[i]) {
      assert reg.order[i] in reg.nodes;
    }
  }

  /** update_parameters' loop over the registry with its `break` on the
      first node found; looking up a missing "value" key raises KeyError. */
  method ScanAlarm2(reg: Snapshot) returns (r: Outcome<bool>)
    requires reg.Valid()
    ensures r == ScanResult(reg.Values())
  {
    ghost var ns := reg.Values();
    var i := 0;
    while i < |reg.order|
      invariant 0 <= i <= |reg.order|
      invariant ScanResult(ns) == ScanResult(ns[i..])
    {
      var localNode := reg.nodes[reg.order[i]];
      assert ns[i..][0] == localNode && ns[i..][1..] == ns[i + 1..];
      var alarm2 := FindEndpoint(localNode.showEndpoints, SIGNAL, "alarm2");
      if alarm2.Some? {
        if alarm2.value.value.None? {
          return Raised(KeyError);
        }
        if PyEq(alarm2.value.value.value, VBool(true)) {
          return Ok(true);
        }
      }
      i := i + 1;
    }
    r := Ok(false);
  }
}
