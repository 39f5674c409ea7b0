/** The vendor client's home API (`api.home` of freebox_api), treated as an
    oracle: whatever the gateway answers is supplied by the caller, and every
    request the integration issues is appended to a ghost log, so that "no
    request is sent" and "exactly one write is sent" can be stated. */
module Gateway {
  import opened Values

  datatype Call =
    | GetNodes                                              // get_home_nodes()
    | GetValue(node: int, endpoint: int)                    // get_home_endpoint_value(node, ep)
    | SetValue(node: int, endpoint: int, payload: Value)    // set_home_endpoint_value(node, ep, {"value": payload})

  class HomeApi {
    ghost var calls: seq<Call>

    constructor ()
      ensures calls == []
    {
      calls := [];
    }

    method GetHomeNodes()
      modifies this
      ensures calls == old(calls) + [GetNodes]
    {
      calls := calls + [GetNodes];
    }

    /** `reply` is the "value" key of the gateway's answer (None when absent). */
    method GetHomeEndpointValue(node: int, endpoint: int, reply: Option<Value>) returns (r: Option<Value>)
      modifies this
      ensures r == reply
      ensures calls == old(calls) + [GetValue(node, endpoint)]
    {
      calls := calls + [GetValue(node, endpoint)];
      r := reply;
    }

    method SetHomeEndpointValue(node: int, endpoint: int, payload: Value)
      modifies this
      ensures calls == old(calls) + [SetValue(node, endpoint, payload)]
    {
      calls := calls + [SetValue(node, endpoint, payload)];
    }
  }
}
