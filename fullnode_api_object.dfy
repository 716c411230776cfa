/** The façade object `FullNodeAPI` (quorum_fullnode_py/api/fullnode.py) with its
    mutable `group_id`. Every request goes through `Send`, which asks the node and
    appends the request to `log`; each method is proved to return what its
    specification in `FullNodeApi` returns and to leave the log that specification
    describes, so every property proved there about results and requests holds
    of the methods. */
module FullNodeApiObject {
  import opened Optional
  import opened Exceptions
  import opened Values
  import opened FullNodeApi
  import Endpoints

  class Api {
    /** The node the façade talks to. */
    const node: Node
    /** `json.loads(base64.b64decode(_))`, None where it raises. */
    const decode: Value -> Option<Value>
    /** The current group, read by every guard when no id is passed. */
    var groupId: Option<string>
    /** Every request sent so far, oldest first. */
    var log: seq<Call>

    constructor (node: Node, decode: Value -> Option<Value>, groupId: Option<string>)
      ensures this.node == node && this.decode == decode && this.groupId == groupId && log == []
    {
      this.node := node;
      this.decode := decode;
      this.groupId := groupId;
      log := [];
    }

    /** One request: the node answers from everything sent before it. */
    method Send(c: Call) returns (resp: Value)
      modifies this
      ensures resp == node(old(log), c) && log == old(log) + [c] && groupId == old(groupId)
    {
      resp := node(log, c);
      log := log + [c];
    }

    /* ------------------------------------------------------------ guards */

    /** `groups`: the joined groups, or an empty list. */
    method Groups() returns (r: Result<Value>)
      modifies this
      ensures r == GroupsOf(node(old(log), Fetch(Endpoints.Groups)))
      ensures log == old(log) + [Fetch(Endpoints.Groups)] && groupId == old(groupId)
    {
      var resp := Send(Fetch(Endpoints.Groups));
      r := GroupsOf(resp);
    }

    /** `groups_id`: the `group_id` of every joined group. */
    method GroupIds() returns (r: Result<seq<Value>>)
      modifies this
      ensures r == GroupIdsOf(node(old(log), Fetch(Endpoints.Groups)))
      ensures log == old(log) + [Fetch(Endpoints.Groups)] && groupId == old(groupId)
    {
      var groups :- Groups();
      var items :- Iterate(groups);
      r := IndexEach(items, "group_id");
    }

    /** `_check_group_joined_as_required`. */
    method CheckJoined(arg: Option<string>) returns (r: Result<string>)
      modifies this
      ensures var s := JoinedSpec(node, old(log), arg, old(groupId)); r == s.result && log == s.log
      ensures groupId == old(groupId)
    {
      var g :- GroupIdOf(arg, groupId);
      var ids :- GroupIds();
      if Str(g) !in ids {
        return Err(ChainError("You are not in this group: <" + g + ">."));
      }
      r := Ok(g);
    }

    /** `_check_group_owner_as_required`. */
    method CheckOwner(arg: Option<string>) returns (r: Result<string>)
      modifies this
      ensures var s := OwnerSpec(node, old(log), arg, old(groupId)); r == s.result && log == s.log
      ensures groupId == old(groupId)
    {
      var g :- CheckJoined(arg);
      GroupInfoRequest(node, log, g, groupId);
      var info :- Request(GroupInfo, Some(g));
      r := OwnerIn(info, g);
    }

    /* ---------------------------------------------------------- wrappers */

    /** Any thin wrapper: its guard, then its one request. */
    method Request(w: Wrapper, arg: Option<string>) returns (r: Result<Value>)
      modifies this
      ensures var s := WrapSpec(node, old(log), w, arg, old(groupId)); r == s.result && log == s.log
      ensures groupId == old(groupId)
    {
      var g := "";
      if GuardOf(w) == NeedsId {
        g :- GroupIdOf(arg, groupId);
      } else if GuardOf(w) == NeedsJoined {
        g :- CheckJoined(arg);
      }
      var resp := Send(WrapperCall(w, g));
      r := Unwrap(w, resp);
    }

    /* ------------------------------------------------------------ tokens */

    /** `create_token`; `later` is the date five years ahead. */
    method CreateToken(role: Option<string>, name: Option<string>, groupIdArg: Option<string>,
                       expiresAt: Option<string>, later: string) returns (r: Result<Value>)
      modifies this
      ensures var p := CreateTokenPayload(role, name, groupIdArg, expiresAt, old(groupId), later);
        && (p.Err? ==> r == Err(p.failure) && log == old(log))
        && (p.Ok? ==> var c := Call(Endpoints.CreateToken, p.value);
              r == Ok(node(old(log), c)) && log == old(log) + [c])
      ensures groupId == old(groupId)
    {
      var payload :- CreateTokenPayload(role, name, groupIdArg, expiresAt, groupId, later);
      var resp := Send(Call(Endpoints.CreateToken, payload));
      r := Ok(resp);
    }

    /** `revoke_token` (`e` is `RevokeToken`) and `remove_token` (`e` is
        `RemoveToken`): the same role rule, the same body. */
    method TokenChange(e: Endpoints.Endpoint, token: Option<string>, role: Option<string>, groupIdArg: Option<string>)
      returns (r: Result<Value>)
      requires e == Endpoints.RevokeToken || e == Endpoints.RemoveToken
      modifies this
      ensures var p := TokenPayload(role, token, groupIdArg, old(groupId));
        && (p.Err? ==> r == Err(p.failure) && log == old(log))
        && (p.Ok? ==> var c := Call(e, p.value); r == Ok(node(old(log), c)) && log == old(log) + [c])
      ensures groupId == old(groupId)
    {
      var payload :- TokenPayload(role, token, groupIdArg, groupId);
      var resp := Send(Call(e, payload));
      r := Ok(resp);
    }

    /* ----------------------------------------------------------- content */

    /** `get_content`: each listed trx is decoded in place and collected. */
    method GetContent(arg: Option<string>, l: Listing) returns (r: Result<seq<Value>>)
      modifies this
      ensures var s := GetContentSpec(node, decode, old(log), arg, old(groupId), l); r == s.result && log == s.log
      ensures groupId == old(groupId)
    {
      var g :- GroupIdOf(arg, groupId);
      var resp := Send(Fetch(Endpoints.Content(g, ContentParams(l))));
      var items :- Iterate(resp);
      var trxs: seq<Value> := [];
      ghost var sent := log;
      for i := 0 to |items|
        invariant trxs == DecodeAll(decode, items[..i])
        invariant log == sent && groupId == old(groupId)
      {
        DecodeAllSnoc(decode, items, i);
        trxs := trxs + [DecodeTrx(decode, items[i])];
      }
      assert items[..|items|] == items;
      r := Ok(trxs);
    }

    /** `trx`: the listing anchored at the id, else `get_trx`. */
    method Trx(trxId: Option<string>, arg: Option<string>) returns (r: Result<Value>)
      modifies this
      ensures var s := TrxSpec(node, decode, old(log), trxId, arg, old(groupId)); r == s.result && log == s.log
      ensures groupId == old(groupId)
    {
      if !TruthyStr(trxId) {
        return Ok(Dict([]));
      }
      var trxs :- GetContent(arg, TrxPage(trxId.value));
      if trxs != [] {
        r := Ok(trxs[0]);
      } else {
        r := Request(GetTrx(trxId.value), arg);
      }
    }

    /* -------------------------------------------------------------- acks */

    /** `ack`. */
    method Ack(trxIds: Value) returns (r: Result<Value>)
      modifies this
      ensures var s := AckSpec(node, old(log), trxIds); r == s.result && log == s.log
      ensures groupId == old(groupId)
    {
      if trxIds == List([]) {
        return Ok(Bool(true));
      }
      var resp := Send(Call(Endpoints.PubqueueAck, Dict([("trx_ids", trxIds)])));
      r := Ok(resp);
    }

    /** `autoack`. */
    method AutoAck(arg: Option<string>) returns (r: Result<Value>)
      modifies this
      ensures var s := AutoAckSpec(node, old(log), arg, old(groupId)); r == s.result && log == s.log
      ensures groupId == old(groupId)
    {
      var g :- GroupIdOf(arg, groupId);
      var queue :- Request(Pubqueue, Some(g));
      var items :- Iterate(queue);
      var ids :- FailedTrxIds(items);
      r := Ack(List(ids));
    }

    /* ------------------------------------------------------- owner posts */

    /** `update_appconfig`. */
    method UpdateAppconfig(name: string, itemType: string, value: Value, action: string, memo: Option<string>,
                           arg: Option<string>) returns (r: Result<Value>)
      modifies this
      ensures var s := UpdateAppconfigSpec(node, old(log), name, itemType, value, action, memo, arg, old(groupId));
        r == s.result && log == s.log
      ensures groupId == old(groupId)
    {
      var g :- CheckOwner(arg);
      var payload :- AppconfigPayload(g, name, itemType, value, action, memo);
      var resp := Send(Call(Endpoints.Appconfig, payload));
      r := Ok(resp);
    }

    /** `get_trx_auth`. */
    method GetTrxAuth(trxType: string, arg: Option<string>) returns (r: Result<Value>)
      modifies this
      ensures var s := GetTrxAuthSpec(node, old(log), trxType, arg, old(groupId)); r == s.result && log == s.log
      ensures groupId == old(groupId)
    {
      var g :- GroupIdOf(arg, groupId);
      var t :- CheckTrxType(trxType);
      var resp := Send(Fetch(Endpoints.TrxAuth(g, t)));
      r := Ok(resp);
    }

    /** `get_auth`: one `get_trx_auth` per listed type, collected into a dict. */
    method GetAuth() returns (r: Result<Value>)
      modifies this
      ensures var s := GetAuthSpec(node, old(log), old(groupId)); r == s.result && log == s.log
      ensures groupId == old(groupId)
    {
      var rlt: seq<(string, Value)> := [];
      var types := TrxTypes;
      ghost var g := GroupIdOf(None, groupId);
      while types != []
        invariant groupId == old(groupId)
        invariant types != TrxTypes ==> g.Ok?
        invariant types == TrxTypes ==> log == old(log) && rlt == []
        invariant g.Ok? ==>
          AuthFrom(CheckTrxType, node, log, g.value, types, rlt)
          == AuthFrom(CheckTrxType, node, old(log), g.value, TrxTypes, [])
        decreases |types|
      {
        ghost var before := log;
        var resp :- GetTrxAuth(types[0], None);
        var entry :- AuthEntry(resp);
        AuthFromStep(CheckTrxType, node, before, g.value, types, rlt, entry);
        rlt := Put(rlt, entry.0, entry.1);
        types := types[1..];
      }
      r := Ok(Dict(rlt));
    }

    /** `set_trx_auth`. */
    method SetTrxAuth(trxType: string, mode: string, memo: string, arg: Option<string>) returns (r: Result<Value>)
      modifies this
      ensures var s := SetTrxAuthSpec(node, old(log), trxType, mode, memo, arg, old(groupId));
        r == s.result && log == s.log
      ensures groupId == old(groupId)
    {
      var g :- CheckOwner(arg);
      var payload :- TrxAuthPayload(g, trxType, mode, memo);
      var resp := Send(Call(Endpoints.Chainconfig, payload));
      r := Ok(resp);
    }

    /** `_update_list`. */
    method UpdateList(pubkey: string, mode: string, memo: string, action: string, trxTypes: Value,
                      arg: Option<string>) returns (r: Result<Value>)
      modifies this
      ensures var s := UpdateListSpec(node, old(log), pubkey, mode, memo, action, trxTypes, arg, old(groupId));
        r == s.result && log == s.log
      ensures groupId == old(groupId)
    {
      var g :- CheckOwner(arg);
      var payload :- UpdateListPayload(g, pubkey, mode, memo, action, trxTypes);
      var resp := Send(Call(Endpoints.Chainconfig, payload));
      r := Ok(resp);
    }

    /** `add_allow_list`, `remove_allow_list`, `add_deny_list`, `remove_deny_list`. */
    method EditList(edit: ListEdit, pubkey: string, trxTypes: Value, arg: Option<string>) returns (r: Result<Value>)
      modifies this
      ensures var s := UpdateListSpec(node, old(log), pubkey, edit.Mode(), edit.Memo(), edit.Action(), trxTypes,
                                      arg, old(groupId));
        r == s.result && log == s.log
      ensures groupId == old(groupId)
    {
      r := UpdateList(pubkey, edit.Mode(), edit.Memo(), edit.Action(), trxTypes, arg);
    }

    /* ----------------------------------------------------------- network */

    /** `group_network`: scan the network's groups for this one, stopping at the
        first match. */
    method GroupNetwork(arg: Option<string>) returns (r: Result<Value>)
      modifies this
      ensures var s := GroupNetworkSpec(node, old(log), arg, old(groupId)); r == s.result && log == s.log
      ensures groupId == old(groupId)
    {
      var g :- GroupIdOf(arg, groupId);
      var rlt := List([]);
      var resp := Send(Fetch(Endpoints.Network));
      var groups :- Get(resp, "groups", List([]));
      var entries :- Iterate(groups);
      var i := 0;
      while i < |entries|
        invariant 0 <= i <= |entries| && rlt == List([])
        invariant PeersOf(entries[i..], g) == PeersOf(entries, g)
      {
        var id :- Get(entries[i], "GroupId", Null);
        if id == Str(g) {
          rlt := GetOr(entries[i].fields, "Peers", List([]));
          break;
        }
        assert entries[i..][1..] == entries[i + 1..];
        i := i + 1;
      }
      r := Ok(rlt);
    }

    /** `producers`. */
    method Producers(arg: Option<string>) returns (r: Result<seq<Value>>)
      modifies this
      ensures var s := ProducersSpec(node, old(log), arg, old(groupId)); r == s.result && log == s.log
      ensures groupId == old(groupId)
    {
      var cons :- Request(Consensus, arg);
      var bps :- Get(cons, "producers", List([]));
      var items :- Iterate(bps);
      r := IndexEach(items, "ProducerPubkey");
    }

    /** The first request of the consensus proof `update_consensus` starts from:
        `get_consensus`, then `get_consensus_req` of the proof it names. With the group
        already resolved each of these is its one request (`ConsensusRequests`). */
    method ProofRequest(g: string) returns (r: Result<Value>)
      requires g != ""
      modifies this
      ensures var s := ProofReq(node, old(log), g); r == s.result && log == s.log
      ensures groupId == old(groupId)
    {
      var cons := Send(Fetch(Endpoints.Consensus(g)));
      var reqId :- Get(cons, "proof_req_id", Null);
      var proof := Send(Fetch(Endpoints.ConsensusReq(g, reqId)));
      var reqs :- Get(proof, "resps", List([]));
      r := FirstReq(reqs);
    }

    /** `update_consensus`. */
    method UpdateConsensus(a: ConsensusArgs, arg: Option<string>) returns (r: Result<Value>)
      modifies this
      ensures var s := UpdateConsensusSpec(node, old(log), a, arg, old(groupId)); r == s.result && log == s.log
      ensures groupId == old(groupId)
    {
      var g :- GroupIdOf(arg, groupId);
      var req :- ProofRequest(g);
      if TickError(a).Some? {
        return Err(ValueError(TickError(a).value));
      }
      var exist :- Existing(req);
      var planned := Planned(a, exist);
      if SettingsDict(g, planned) == SettingsDict(g, exist) {
        return Ok(Dict([("message", Str("Nothing to update"))]));
      }
      if !Orderable(planned.tick, planned.length) {
        return Err(Unexpected("'<' not supported between trx_epoch_tick and agreement_tick_Length"));
      }
      var resp := Send(Call(Endpoints.UpdateConsensus, SettingsDict(g, planned)));
      r := Ok(resp);
    }

    /* ------------------------------------------------------------- users */

    /** `_approve_user`. */
    method ApproveUser(pubkey: string, action: string, arg: Option<string>) returns (r: Result<Value>)
      modifies this
      ensures var s := ApproveUserSpec(node, old(log), pubkey, action, arg, old(groupId)); r == s.result && log == s.log
      ensures groupId == old(groupId)
    {
      var g :- CheckOwner(arg);
      var payload :- ApproveUserPayload(g, pubkey, action);
      var resp := Send(Call(Endpoints.User, payload));
      r := Ok(resp);
    }

    /** `add_user`, whose probe passes no group id and so asks about the current
        group. */
    method AddUser(pubkey: string, arg: Option<string>) returns (r: Result<Value>)
      modifies this
      ensures var s := AddUserAsWritten(node, old(log), pubkey, arg, old(groupId)); r == s.result && log == s.log
      ensures groupId == old(groupId)
    {
      var status := Request(AnnouncedUser(pubkey), None);
      if status.Ok? && Approved(status.value) {
        return status;
      }
      r := ApproveUser(pubkey, "add", arg);
    }

    /** `remove_user`. */
    method RemoveUser(pubkey: string, arg: Option<string>) returns (r: Result<Value>)
      modifies this
      ensures var s := ApproveUserSpec(node, old(log), pubkey, "remove", arg, old(groupId));
        r == s.result && log == s.log
      ensures groupId == old(groupId)
    {
      r := ApproveUser(pubkey, "remove", arg);
    }
  }
}
