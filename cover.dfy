/** The cover adapters (cover.py): a basic shutter whose state is the
    tri-state open / closed / None, updated optimistically by its commands,
    and a positional shutter whose state is the position it last read. */
module Cover {
  import opened Values
  import opened BaseClass
  import opened Registry
  import Gateway

  /** The host's STATE_OPEN and STATE_CLOSED strings. */
  const STATE_OPEN: Value := VStr("open")
  const STATE_CLOSED: Value := VStr("closed")

  /** `convert_state`: a truthy read is closed, any other non-None read is
      open, and None stays None. */
  function ConvertState(v: Value): (r: Value)
    ensures r == STATE_CLOSED <==> Truthy(v)
    ensures r == STATE_OPEN <==> !Truthy(v) && v != VNull
    ensures r == VNull <==> v == VNull
  {
    if Truthy(v) then STATE_CLOSED
    else if v != VNull then STATE_OPEN
    else VNull
  }

  /** The basic shutter's `is_closed`: None unless the state is one of the
      two host strings. */
  function IsClosedBasic(state: Value): (r: Option<bool>)
    ensures r == Some(false) <==> state == STATE_OPEN
    ensures r == Some(true) <==> state == STATE_CLOSED
  {
    if state == STATE_OPEN then Some(false)
    else if state == STATE_CLOSED then Some(true)
    else None
  }

  /** After an update the shutter reports closed exactly for a truthy read,
      open for any other read, and nothing for a None read. */
  lemma UpdateThenIsClosed(v: Value)
    ensures IsClosedBasic(ConvertState(v)) == if v == VNull then None else Some(Truthy(v))
  {
  }

  /** A shutter without a state signal reads VALUE_NOT_SET, which is truthy,
      so it reports closed. */
  lemma SentinelReadsClosed()
    ensures ConvertState(NotSet) == STATE_CLOSED && IsClosedBasic(ConvertState(NotSet)) == Some(true)
  {
  }

  /** The raw state stored at construction is not converted: a boolean or
      numeric one leaves `is_closed` undetermined until the first update. */
  lemma RawStateNotClassified(v: Value)
    requires !v.VStr?
    ensures IsClosedBasic(v).None?
  {
  }

  class FreeboxBasicShutter {
    const ident: Identity
    var name: string
    const commandUp: int
    const commandStop: int
    const commandDown: int
    const commandState: int
    var state: Value

    constructor (mac: string, node: Node)
      ensures ident == MakeIdentity(mac, node, None) && name == Strip(node.labelText)
      ensures commandUp == GetCommandId(node.showEndpoints, SLOT, "up")
      ensures commandStop == GetCommandId(node.showEndpoints, SLOT, "stop")
      ensures commandDown == GetCommandId(node.showEndpoints, SLOT, "down")
      ensures commandState == GetCommandId(node.showEndpoints, SIGNAL, "state")
      ensures state == GetNodeValue(node.showEndpoints, SIGNAL, "state")
    {
      ident := MakeIdentity(mac, node, None);
      name := Strip(node.labelText);
      commandUp := GetCommandId(node.showEndpoints, SLOT, "up");
      commandStop := GetCommandId(node.showEndpoints, SLOT, "stop");
      commandDown := GetCommandId(node.showEndpoints, SLOT, "down");
      commandState := GetCommandId(node.showEndpoints, SIGNAL, "state");
      state := GetNodeValue(node.showEndpoints, SIGNAL, "state");
    }

    function IsClosed(): Option<bool>
      reads this
    {
      IsClosedBasic(state)
    }

    /** Open: writes the up slot, then shows open whether or not it wrote. */
    method OpenCover(api: Gateway.HomeApi)
      modifies this, api
      ensures api.calls == old(api.calls) + WriteCalls(ident.id, commandUp, VNull)
      ensures state == STATE_OPEN && IsClosed() == Some(false) && name == old(name)
    {
      var _ := SetHomeEndpointValue(api, ident.id, commandUp, VNull);
      state := STATE_OPEN;
    }

    method CloseCover(api: Gateway.HomeApi)
      modifies this, api
      ensures api.calls == old(api.calls) + WriteCalls(ident.id, commandDown, VNull)
      ensures state == STATE_CLOSED && IsClosed() == Some(true) && name == old(name)
    {
      var _ := SetHomeEndpointValue(api, ident.id, commandDown, VNull);
      state := STATE_CLOSED;
    }

    method StopCover(api: Gateway.HomeApi)
      modifies this, api
      ensures api.calls == old(api.calls) + WriteCalls(ident.id, commandStop, VNull)
      ensures state == VNull && IsClosed().None? && name == old(name)
    {
      var _ := SetHomeEndpointValue(api, ident.id, commandStop, VNull);
      state := VNull;
    }

    /** async_update: the registry lookup comes first, so a node that left the
        registry raises KeyError before any read. */
    method AsyncUpdate(api: Gateway.HomeApi, reg: Snapshot, reply: Option<Value>)
      returns (raised: Option<PyError>)
      modifies this, api
      ensures ident.id !in reg.nodes ==>
        raised == Some(KeyError) && api.calls == old(api.calls)
        && state == old(state) && name == old(name)
      ensures ident.id in reg.nodes ==>
        && raised.None?
        && api.calls == old(api.calls) + ReadCalls(ident.id, commandState)
        && name == Strip(reg.nodes[ident.id].labelText)
        && state == ConvertState(ReadResult(commandState, reply))
    {
      if ident.id !in reg.nodes {
        return Some(KeyError);
      }
      name := Strip(reg.nodes[ident.id].labelText);
      var v := GetHomeEndpointValue(api, ident.id, commandState, reply);
      state := ConvertState(v);
      raised := None;
    }
  }

  // ---------------------------------------------------------------------
  // Positional shutter

  /** The positional shutter's `is_closed`: `state == 100`. */
  function IsClosedPositional(state: Value): (r: bool)
    ensures r <==> state == VInt(100)
  {
    PyEq(state, VInt(100))
  }

  /** Setting any position, 100 included, leaves the shutter reporting open,
      since the stored position is the string "open". */
  lemma SetPositionNeverClosed()
    ensures !IsClosedPositional(STATE_OPEN)
  {
  }

  class FreeboxShutter {
    const ident: Identity
    var name: string
    const commandPosition: int
    const commandUp: int
    const commandDown: int
    const commandStop: int
    const commandToggle: int
    const commandState: int
    /** `_state`, also reported as `current_cover_position`. */
    var state: Value

    constructor (mac: string, node: Node)
      ensures ident == MakeIdentity(mac, node, None) && name == Strip(node.labelText)
      ensures commandPosition == GetCommandId(node.typeEndpoints, SLOT, "position_set")
      ensures commandUp == commandPosition && commandDown == commandPosition
      ensures commandStop == GetCommandId(node.showEndpoints, SLOT, "stop")
      ensures commandToggle == GetCommandId(node.showEndpoints, SLOT, "toggle")
      ensures commandState == GetCommandId(node.typeEndpoints, SIGNAL, "position_set")
      ensures state == GetNodeValue(node.showEndpoints, SIGNAL, "state")
    {
      ident := MakeIdentity(mac, node, None);
      name := Strip(node.labelText);
      commandPosition := GetCommandId(node.typeEndpoints, SLOT, "position_set");
      commandUp := GetCommandId(node.typeEndpoints, SLOT, "position_set");
      commandDown := GetCommandId(node.typeEndpoints, SLOT, "position_set");
      commandStop := GetCommandId(node.showEndpoints, SLOT, "stop");
      commandToggle := GetCommandId(node.showEndpoints, SLOT, "toggle");
      commandState := GetCommandId(node.typeEndpoints, SIGNAL, "position_set");
      state := GetNodeValue(node.showEndpoints, SIGNAL, "state");
    }

    function IsClosed(): bool
      reads this
    {
      IsClosedPositional(state)
    }

    /** async_set_cover_position: writes the position, then stores "open". */
    method SetCoverPosition(api: Gateway.HomeApi, position: int)
      modifies this, api
      ensures api.calls == old(api.calls) + WriteCalls(ident.id, commandPosition, VInt(position))
      ensures state == STATE_OPEN && !IsClosed() && name == old(name)
    {
      var _ := SetHomeEndpointValue(api, ident.id, commandPosition, VInt(position));
      state := STATE_OPEN;
    }

    /** Open writes position 0 and leaves the state alone. */
    method OpenCover(api: Gateway.HomeApi)
      modifies api
      ensures api.calls == old(api.calls) + WriteCalls(ident.id, commandUp, VInt(0))
    {
      var _ := SetHomeEndpointValue(api, ident.id, commandUp, VInt(0));
    }

    /** Close writes position 100, to the same slot as open, and leaves the
        state alone. */
    method CloseCover(api: Gateway.HomeApi)
      modifies api
      ensures api.calls == old(api.calls) + WriteCalls(ident.id, commandDown, VInt(100))
    {
      var _ := SetHomeEndpointValue(api, ident.id, commandDown, VInt(100));
    }

    method StopCover(api: Gateway.HomeApi)
      modifies this, api
      ensures api.calls == old(api.calls) + WriteCalls(ident.id, commandStop, VNull)
      ensures state == VNull && !IsClosed() && name == old(name)
    {
      var _ := SetHomeEndpointValue(api, ident.id, commandStop, VNull);
      state := VNull;
    }

    method AsyncUpdate(api: Gateway.HomeApi, reg: Snapshot, reply: Option<Value>)
      returns (raised: Option<PyError>)
      modifies this, api
      ensures ident.id !in reg.nodes ==>
        raised == Some(KeyError) && api.calls == old(api.calls)
        && state == old(state) && name == old(name)
      ensures ident.id in reg.nodes ==>
        && raised.None?
        && api.calls == old(api.calls) + ReadCalls(ident.id, commandState)
        && name == Strip(reg.nodes[ident.id].labelText)
        && state == ReadResult(commandState, reply)
        && (IsClosed() <==> ReadResult(commandState, reply) == VInt(100))
    {
      if ident.id !in reg.nodes {
        return Some(KeyError);
      }
      name := Strip(reg.nodes[ident.id].labelText);
      state := GetHomeEndpointValue(api, ident.id, commandState, reply);
      raised := None;
    }
  }
}
