/** The client `FullNode` (quorum_fullnode_py/client/fullnode.py): where it finds
    the node, and its `group_id`, which it mirrors into the façade it owns. */
module Client {
  import opened Optional
  import opened Text
  import opened Exceptions
  import opened Values
  import opened FullNodeApi
  import opened FullNodeApiObject

  /** The address the client talks to: a port (any non-zero one) wins over any
      `api_base`, and means the local node. */
  const LocalBase: string := "http://127.0.0.1:"

  /** `__init__`'s resolution of `api_base` and `port`. */
  function ResolveApiBase(apiBase: Option<string>, port: Option<int>): (r: Result<string>)
    ensures port.Some? && port.value != 0 ==> r == Ok(LocalBase + IntToString(port.value))
    ensures port.None? || port.value == 0 ==> (r.Ok? <==> TruthyStr(apiBase))
    ensures port.None? || port.value == 0 ==> (r.Ok? ==> r.value == apiBase.value)
    ensures r.Err? ==> r == Err(ParamValue("api_base is required"))
  {
    var base := if port.Some? && port.value != 0 then Some(LocalBase + IntToString(port.value)) else apiBase;
    if !TruthyStr(base) then Err(ParamValue("api_base is required")) else Ok(base.value)
  }

  /** The port can be read back from the address it produced, whatever `api_base`
      was given beside it. */
  lemma PortReadBack(apiBase: Option<string>, port: int)
    requires port != 0
    ensures var r := ResolveApiBase(apiBase, Some(port));
      && r.Ok? && |r.value| > |LocalBase| && r.value[..|LocalBase|] == LocalBase
      && ParseInt(r.value[|LocalBase|..]) == Some(port)
  {
    var r := ResolveApiBase(apiBase, Some(port)).value;
    assert r[|LocalBase|..] == IntToString(port);
    IntToStringRoundTrip(port);
  }

  class FullNode {
    /** Where the HTTP requests go, and the token they carry. */
    const apiBase: string
    const jwtToken: Option<string>
    /** The façade this client owns. */
    const api: Api
    var groupId: Option<string>

    /** The client and its façade agree on the current group. */
    ghost predicate Mirrored()
      reads this, api
    {
      api.groupId == groupId
    }

    constructor (node: Node, decode: Value -> Option<Value>, apiBase: string, jwtToken: Option<string>)
      ensures this.apiBase == apiBase && this.jwtToken == jwtToken
      ensures groupId == None && fresh(api) && api.node == node && api.decode == decode && api.log == []
      ensures Mirrored()
    {
      this.apiBase := apiBase;
      this.jwtToken := jwtToken;
      groupId := None;
      api := new Api(node, decode, None);
    }

    /** `FullNode(api_base, jwt_token, port)`: no client without an address; a new
        client has no group, and neither has its façade, which has sent nothing. */
    static method Connect(node: Node, decode: Value -> Option<Value>, apiBase: Option<string>,
                          jwtToken: Option<string>, port: Option<int>) returns (r: Result<FullNode>)
      ensures r.Ok? <==> ResolveApiBase(apiBase, port).Ok?
      ensures r.Err? ==> r.failure == ParamValue("api_base is required")
      ensures r.Ok? ==> var c := r.value;
        && fresh(c) && fresh(c.api)
        && c.apiBase == ResolveApiBase(apiBase, port).value && c.jwtToken == jwtToken
        && c.groupId == None && c.Mirrored() && c.api.node == node && c.api.log == []
    {
      var base :- ResolveApiBase(apiBase, port);
      var c := new FullNode(node, decode, base, jwtToken);
      r := Ok(c);
    }

    /** The `group_id` setter: the client and its façade both take the new group,
        and nothing is sent. */
    method SetGroupId(g: Option<string>)
      modifies this, api
      ensures groupId == g && api.groupId == g && Mirrored()
      ensures api.log == old(api.log)
    {
      groupId := g;
      api.groupId := g;
    }
  }

  /** After the setter, a call without an explicit group id works on the group just
      set: `group_info()` does what `group_info(g)` on a client without a group does. */
  method SetThenGroupInfo(c: FullNode, g: string) returns (r: Result<Value>)
    requires g != ""
    modifies c, c.api
    ensures c.groupId == Some(g) && c.Mirrored()
    ensures var s := WrapSpec(c.api.node, old(c.api.log), GroupInfo, Some(g), None);
      r == s.result && c.api.log == s.log
  {
    c.SetGroupId(Some(g));
    r := c.api.Request(GroupInfo, None);
  }
}
