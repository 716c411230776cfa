/** The validating façade `FullNodeAPI` (quorum_fullnode_py/api/fullnode.py): the
    group-id, membership and ownership guards, the trx type and mode normalisers,
    the payloads it builds, and the requests it sends.

    The node is an oracle: what it answers to a request may depend on every
    request sent before. Each operation is first specified as a function of the
    oracle, the requests sent so far and the current `group_id`, giving its result
    and the requests sent after it (`Sent`); the class `Api` then carries the
    mutable `group_id` and the request log, and each of its methods is proved to
    do what its specification says. */
module FullNodeApi {
  import opened Optional
  import opened Text
  import opened Exceptions
  import opened Values
  import Endpoints

  /** One request: the endpoint helper called and the JSON body passed (None for a
      `_get` without payload). */
  datatype Call = Call(endpoint: Endpoints.Endpoint, payload: Value)

  function Fetch(e: Endpoints.Endpoint): Call { Call(e, Null) }

  /** The node: its JSON answer to a request, given every request sent before it. */
  type Node = (seq<Call>, Call) -> Value

  /** An operation's outcome and the whole request log after it. */
  datatype Sent<T> = Sent(result: Result<T>, log: seq<Call>)

  /* ----------------------------------------------------- trx type and mode */

  const TrxTypes: seq<string> := [
    "POST", "ANNOUNCE", "REQ_BLOCK_FORWARD", "REQ_BLOCK_BACKWARD",
    "BLOCK_SYNCED", "BLOCK_PRODUCED", "ASK_PEERID"]

  /** How the list prints inside the error message. */
  const TrxTypesText: string :=
    "['POST', 'ANNOUNCE', 'REQ_BLOCK_FORWARD', 'REQ_BLOCK_BACKWARD', 'BLOCK_SYNCED', 'BLOCK_PRODUCED', 'ASK_PEERID']"

  /** `_check_trx_type`: the upper-cased type when it is one of the seven. */
  function CheckTrxType(t: string): (r: Result<string>)
    ensures r.Ok? <==> Upper(t) in TrxTypes
    ensures r.Ok? ==> r.value == Upper(t) && r.value in TrxTypes
    ensures r.Err? ==> IsParamValue(r.failure)
  {
    var u := Upper(t);
    if u in TrxTypes then Ok(u) else Err(ParamValue(u + " must be one of " + TrxTypesText))
  }

  /** Two spellings that differ only in case are the same trx type. */
  lemma CheckTrxTypeIgnoresCase(a: string, b: string)
    requires Lower(a) == Lower(b)
    ensures CheckTrxType(a) == CheckTrxType(b)
  {
    UpperOfLower(a);
    UpperOfLower(b);
  }

  /** Each of the seven types is accepted as it is and in lower case, and comes back
      as itself. */
  lemma CheckTrxTypeAcceptsListed(t: string)
    requires t in TrxTypes
    ensures CheckTrxType(t) == Ok(t)
    ensures CheckTrxType(Lower(t)) == Ok(t)
  {
    ListedAreCapitals();
    CapitalsAreUpper(t);
  }

  predicate Capitals(t: string) { forall k :: 0 <= k < |t| ==> 'A' <= t[k] <= 'Z' || t[k] == '_' }

  lemma ListedAreCapitals()
    ensures forall t :: t in TrxTypes ==> Capitals(t)
  {
  }

  /** A text of capitals and underscores is its own upper case, and the upper case
      of its lower case. */
  lemma CapitalsAreUpper(t: string)
    requires Capitals(t)
    ensures Upper(t) == t && Upper(Lower(t)) == t
  {
    assert Upper(t) == t;
    UpperOfLower(t);
  }

  /** `_check_trx_mode`: "dny" for deny, "alw" for allow, in any case. */
  function CheckTrxMode(mode: string): (r: Result<string>)
    ensures r.Ok? <==> Lower(mode) in ["dny", "deny", "alw", "allow"]
    ensures r.Ok? ==> (r.value == "dny" <==> Lower(mode) in ["dny", "deny"])
    ensures r.Ok? ==> (r.value == "alw" <==> Lower(mode) in ["alw", "allow"])
    ensures r.Err? ==> r == Err(ParamValue(mode + " mode must be one of ['deny','allow']"))
  {
    if Lower(mode) in ["dny", "deny"] then Ok("dny")
    else if Lower(mode) in ["alw", "allow"] then Ok("alw")
    else Err(ParamValue(mode + " mode must be one of ['deny','allow']"))
  }

  /** Two spellings that differ only in case are the same mode. */
  lemma CheckTrxModeIgnoresCase(a: string, b: string)
    requires Upper(a) == Upper(b)
    ensures CheckTrxMode(a).Ok? <==> CheckTrxMode(b).Ok?
    ensures CheckTrxMode(a).Ok? ==> CheckTrxMode(a) == CheckTrxMode(b)
  {
    SameUpToCase(a, b);
  }

  /* ---------------------------------------------------------------- guards */

  /** `_check_group_id_as_required`: the explicit id, else the current one. */
  function GroupIdOf(arg: Option<string>, current: Option<string>): (r: Result<string>)
    ensures r.Ok? <==> TruthyStr(arg) || TruthyStr(current)
    ensures r.Ok? ==> (r.value != "" && r.value == if TruthyStr(arg) then arg.value else current.value)
    ensures r.Err? ==> r == Err(ParamValue("group_id is required"))
  {
    if TruthyStr(arg) then Ok(arg.value)
    else if TruthyStr(current) then Ok(current.value)
    else Err(ParamValue("group_id is required"))
  }

  /** `groups()`: `(answer or {}).get("groups") or []`. */
  function GroupsOf(resp: Value): (r: Result<Value>)
    ensures !Truthy(resp) ==> r == Ok(List([]))
    ensures Truthy(resp) ==> (r.Ok? <==> resp.Dict?)
    ensures r.Ok? ==> Truthy(r.value) || r.value == List([])
  {
    var data := Or(resp, Dict([]));
    var groups :- Get(data, "groups", Null);
    Ok(Or(groups, List([])))
  }

  /** `[x[k] for x in items]`: fails at the first item without `k`. */
  function IndexEach(items: seq<Value>, k: string): (r: Result<seq<Value>>)
    ensures r.Ok? <==> forall i :: 0 <= i < |items| ==> Index(items[i], k).Ok?
    ensures r.Ok? ==> (|r.value| == |items|
      && forall i :: 0 <= i < |items| ==> Index(items[i], k) == Ok(r.value[i]))
  {
    if items == [] then Ok([])
    else
      var first := Index(items[0], k);
      var rest := IndexEach(items[1..], k);
      if first.Err? then Err(first.failure)
      else if rest.Err? then Err(rest.failure)
      else Ok([first.value] + rest.value)
  }

  /** `groups_id`: the `group_id` of every group listed in the answer. */
  function GroupIdsOf(resp: Value): (r: Result<seq<Value>>)
    ensures !Truthy(resp) ==> r == Ok([])
  {
    var groups :- GroupsOf(resp);
    var items :- Iterate(groups);
    IndexEach(items, "group_id")
  }

  /** The membership test of `_check_group_joined_as_required`, on the answer to the
      groups request. */
  function JoinedIn(resp: Value, g: string): (r: Result<string>)
    ensures r.Ok? <==> GroupIdsOf(resp).Ok? && Str(g) in GroupIdsOf(resp).value
    ensures r.Ok? ==> r.value == g
    ensures GroupIdsOf(resp).Ok? && Str(g) !in GroupIdsOf(resp).value ==>
      r == Err(ChainError("You are not in this group: <" + g + ">."))
  {
    var ids :- GroupIdsOf(resp);
    if Str(g) in ids then Ok(g) else Err(ChainError("You are not in this group: <" + g + ">."))
  }

  /** The ownership test of `_check_group_owner_as_required`, on the group info: a
      missing pubkey reads as "user" or "owner", two different strings. */
  function OwnerIn(info: Value, g: string): (r: Result<string>)
    ensures r.Ok? <==> (info.Dict?
      && GetOr(info.fields, "user_pubkey", Str("user")) == GetOr(info.fields, "owner_pubkey", Str("owner")))
    ensures r.Ok? ==> r.value == g
    ensures info.Dict? && r.Err? ==> r == Err(ChainError("You are not the owner of this group: <" + g + ">."))
  {
    var user :- Get(info, "user_pubkey", Str("user"));
    var owner := GetOr(info.fields, "owner_pubkey", Str("owner"));
    if user != owner then Err(ChainError("You are not the owner of this group: <" + g + ">."))
    else Ok(g)
  }

  /** Group info naming neither pubkey never passes; with only one of them named,
      it passes when that one is literally the other's stand-in. */
  lemma OwnerDefaults(g: string, key: string)
    ensures OwnerIn(Dict([]), g).Err?
    ensures OwnerIn(Dict([("owner_pubkey", Str("user"))]), g) == Ok(g)
    ensures OwnerIn(Dict([("user_pubkey", Str(key)), ("owner_pubkey", Str(key))]), g) == Ok(g)
  {
    FindTwo("user_pubkey", Str(key), "owner_pubkey", Str(key));
  }

  /* ----------------------------------------------------------------- tokens */

  /** The role rule shared by `create_token`, `revoke_token` and `remove_token`:
      the role (default "node") and the group the token is for (none for "chain"). */
  function TokenScope(role: Option<string>, groupId: Option<string>, current: Option<string>)
    : (r: Result<(string, Option<string>)>)
    ensures var named := if TruthyStr(role) then role.value else "node";
      && (named != "node" && named != "chain" ==> r == Err(ParamValue("role must be one of ['node','chain']")))
      && (named == "chain" ==> r == Ok(("chain", None)))
      && (named == "node" ==> (r.Ok? <==> GroupIdOf(groupId, current).Ok?))
      && (named == "node" && r.Ok? ==> r.value == ("node", Some(GroupIdOf(groupId, current).value)))
  {
    var named := if TruthyStr(role) then role.value else "node";
    if named != "node" && named != "chain" then Err(ParamValue("role must be one of ['node','chain']"))
    else if named == "chain" then Ok(("chain", None))
    else
      var g :- GroupIdOf(groupId, current);
      Ok(("node", Some(g)))
  }

  /** The body of `create_token`; `later` is the date five years ahead. */
  function CreateTokenPayload(role: Option<string>, name: Option<string>, groupId: Option<string>,
                              expiresAt: Option<string>, current: Option<string>, later: string): (r: Result<Value>)
    ensures r.Ok? <==> TokenScope(role, groupId, current).Ok?
    ensures r.Err? ==> r.failure == TokenScope(role, groupId, current).failure
  {
    var (named, g) :- TokenScope(role, groupId, current);
    var defaultName := if named == "chain" then "allow-chain" else "allow-" + g.value;
    Ok(Dict([
      ("name", Str(if TruthyStr(name) then name.value else defaultName)),
      ("role", Str(named)),
      ("group_id", OptStr(g)),
      ("expires_at", Str(if TruthyStr(expiresAt) then expiresAt.value else later))]))
  }

  /** What a created token is for: a chain token names no group and is called
      "allow-chain" by default; a node token names the group and is called
      "allow-<group>" by default. */
  lemma CreateTokenShape(role: Option<string>, name: Option<string>, groupId: Option<string>,
                         expiresAt: Option<string>, current: Option<string>, later: string)
    requires CreateTokenPayload(role, name, groupId, expiresAt, current, later).Ok?
    ensures var p := CreateTokenPayload(role, name, groupId, expiresAt, current, later).value;
      var (named, g) := TokenScope(role, groupId, current).value;
      && Index(p, "role") == Ok(Str(named))
      && Index(p, "group_id") == Ok(if named == "chain" then Null else Str(g.value))
      && Index(p, "name") == Ok(Str(
        if TruthyStr(name) then name.value
        else if named == "chain" then "allow-chain" else "allow-" + g.value))
      && Index(p, "expires_at") == Ok(Str(if TruthyStr(expiresAt) then expiresAt.value else later))
  {
    var p := CreateTokenPayload(role, name, groupId, expiresAt, current, later).value;
    FindEntry(p.fields, 0);
    FindEntry(p.fields, 1);
    FindEntry(p.fields, 2);
    FindEntry(p.fields, 3);
  }

  /** The body of `revoke_token` and `remove_token`. */
  function TokenPayload(role: Option<string>, token: Option<string>, groupId: Option<string>,
                        current: Option<string>): (r: Result<Value>)
    ensures r.Ok? <==> TokenScope(role, groupId, current).Ok?
    ensures r.Ok? ==> var (named, g) := TokenScope(role, groupId, current).value;
      && Index(r.value, "role") == Ok(Str(named))
      && Index(r.value, "group_id") == Ok(OptStr(g))
      && Index(r.value, "token") == Ok(OptStr(token))
  {
    var (named, g) :- TokenScope(role, groupId, current);
    var fields := [("role", Str(named)), ("group_id", OptStr(g)), ("token", OptStr(token))];
    FindEntry(fields, 0);
    FindEntry(fields, 1);
    FindEntry(fields, 2);
    Ok(Dict(fields))
  }

  /* ------------------------------------------------------- guard requests */

  /** `_check_group_joined_as_required`: the group id, then the groups request. */
  function JoinedSpec(node: Node, log: seq<Call>, arg: Option<string>, current: Option<string>): (s: Sent<string>)
    ensures GroupIdOf(arg, current).Err? ==> s == Sent(Err(ParamValue("group_id is required")), log)
    ensures GroupIdOf(arg, current).Ok? ==> s.log == log + [Fetch(Endpoints.Groups)]
    ensures GroupIdOf(arg, current).Ok? ==>
      s.result == JoinedIn(node(log, Fetch(Endpoints.Groups)), GroupIdOf(arg, current).value)
  {
    match GroupIdOf(arg, current)
    case Err(f) => Sent(Err(f), log)
    case Ok(g) => Sent(JoinedIn(node(log, Fetch(Endpoints.Groups)), g), log + [Fetch(Endpoints.Groups)])
  }

  /** `_check_group_owner_as_required`: the membership guard, then `group_info`
      (which runs the membership guard again), then the pubkey comparison. */
  function OwnerSpec(node: Node, log: seq<Call>, arg: Option<string>, current: Option<string>): (s: Sent<string>)
    ensures s.result.Ok? ==> GroupIdOf(arg, current) == Ok(s.result.value)
  {
    var j := JoinedSpec(node, log, arg, current);
    if j.result.Err? then j
    else
      var g := j.result.value;
      // group_info(g): its own membership guard, then the info request
      var again := JoinedSpec(node, j.log, Some(g), current);
      if again.result.Err? then again
      else
        var c := Fetch(Endpoints.Group(g));
        Sent(OwnerIn(node(again.log, c), g), again.log + [c])
  }

  /** `group_info` on a group already resolved: the membership guard again, then the
      info request; this is the second half of the owner guard. */
  lemma GroupInfoRequest(node: Node, log: seq<Call>, g: string, current: Option<string>)
    requires g != ""
    ensures var again := JoinedSpec(node, log, Some(g), current);
      WrapSpec(node, log, GroupInfo, Some(g), current)
      == if again.result.Err? then Sent(Err(again.result.failure), again.log)
         else Sent(Ok(node(again.log, Fetch(Endpoints.Group(g)))), again.log + [Fetch(Endpoints.Group(g))])
  {
  }

  /** Without a group id the owner guard fails before sending anything. */
  lemma OwnerGuardNeedsId(node: Node, log: seq<Call>, arg: Option<string>, current: Option<string>)
    requires GroupIdOf(arg, current).Err?
    ensures OwnerSpec(node, log, arg, current) == Sent(Err(ParamValue("group_id is required")), log)
  {
  }

  /** When the owner guard passes it has sent the groups request twice and then the
      group info request; the group was listed, and the info names the same user
      and owner pubkey. */
  lemma OwnerGuardShape(node: Node, log: seq<Call>, arg: Option<string>, current: Option<string>)
    requires OwnerSpec(node, log, arg, current).result.Ok?
    ensures GroupIdOf(arg, current).Ok?
    ensures var g := GroupIdOf(arg, current).value;
      var groups := Fetch(Endpoints.Groups);
      && OwnerSpec(node, log, arg, current).result == Ok(g)
      && OwnerSpec(node, log, arg, current).log == log + [groups] + [groups] + [Fetch(Endpoints.Group(g))]
      && JoinedIn(node(log, groups), g) == Ok(g)
      && OwnerIn(node(log + [groups] + [groups], Fetch(Endpoints.Group(g))), g) == Ok(g)
  {
    var groups := Fetch(Endpoints.Groups);
    var j := JoinedSpec(node, log, arg, current);
    assert j.result.Ok?;
    JoinedPassed(node, log, arg, current);
    var g := j.result.value;
    var again := JoinedSpec(node, j.log, Some(g), current);
    assert again.result.Ok?;
    JoinedPassed(node, j.log, Some(g), current);
  }

  /** A membership guard that passes resolved the group id, sent one groups
      request, and found the group in its answer. */
  lemma JoinedPassed(node: Node, log: seq<Call>, arg: Option<string>, current: Option<string>)
    requires JoinedSpec(node, log, arg, current).result.Ok?
    ensures GroupIdOf(arg, current).Ok?
    ensures JoinedSpec(node, log, arg, current).result == GroupIdOf(arg, current)
    ensures JoinedSpec(node, log, arg, current).log == log + [Fetch(Endpoints.Groups)]
    ensures JoinedIn(node(log, Fetch(Endpoints.Groups)), GroupIdOf(arg, current).value) == GroupIdOf(arg, current)
  {
  }

  /* -------------------------------------------------------- thin wrappers */

  /** How much of the guard chain a wrapper runs before its one request. */
  datatype Guard = Unguarded | NeedsId | NeedsJoined

  /** The façade methods that run a guard (or none), send one request and at most
      reshape the answer. */
  datatype Wrapper =
    | NodeInfo
    | Network
    | ConnectPeers(peers: Value)
    | AskForRelay(peers: Value)
    | PubkeyToAddr(pubkey: string)
    | RefreshToken
    | ListToken
    | CreateGroup(groupName: string, appKey: string, consensusType: string, encryptionType: string,
                  includeChainUrl: bool)
    | JoinGroup(seed: string)
    | AddProducer(pubkeys: Value, producerGroup: Option<string>)
    | RemoveProducer(pubkeys: Value, producerGroup: Option<string>)
    | UpdateUser(userPayload: Value)
    | LeaveGroup
    | ClearGroup
    | Pubqueue
    | Keylist
    | Key(key: string)
    | AllowList
    | DenyList
    | AnnouncedProducers
    | AnnounceAsProducer(memo: Option<string>)
    | AnnounceAsProducerToRemove(memo: Option<string>)
    | Consensus
    | ConsensusReq(reqId: Value)
    | ConsensusLast
    | ConsensusHistory
    | ConsensusCurrent
    | AnnouncedUsers
    | AnnouncedUser(userPubkey: string)
    | AnnounceAsUser(memo: Option<string>)
    | GroupInfo
    | Seed(includeChainUrl: bool)
    | PostContent(data: Value)
    | GetBlock(blockId: string)
    | StartSync
    | GetTrx(trxId: string)

  function GuardOf(w: Wrapper): Guard
  {
    match w
    case NodeInfo => Unguarded
    case Network => Unguarded
    case ConnectPeers(_) => Unguarded
    case AskForRelay(_) => Unguarded
    case PubkeyToAddr(_) => Unguarded
    case RefreshToken => Unguarded
    case ListToken => Unguarded
    case CreateGroup(_, _, _, _, _) => Unguarded
    case JoinGroup(_) => Unguarded
    case AddProducer(_, _) => Unguarded
    case RemoveProducer(_, _) => Unguarded
    case UpdateUser(_) => Unguarded
    case GroupInfo => NeedsJoined
    case Seed(_) => NeedsJoined
    case PostContent(_) => NeedsJoined
    case GetBlock(_) => NeedsJoined
    case StartSync => NeedsJoined
    case GetTrx(_) => NeedsJoined
    case _ => NeedsId
  }

  /** `memo or default`. */
  function MemoOr(memo: Option<string>, default: string): string
  {
    if TruthyStr(memo) then memo.value else default
  }

  /** An announcement of this node joining or leaving a role in group `g`. */
  function Announcement(g: string, action: string, role: string, memo: string): Value
  {
    Dict([("group_id", Str(g)), ("action", Str(action)), ("type", Str(role)), ("memo", Str(memo))])
  }

  /** The one request a wrapper sends, for the group `g` its guard resolved. */
  function WrapperCall(w: Wrapper, g: string): Call
  {
    match w
    case NodeInfo => Fetch(Endpoints.NodeInfo)
    case Network => Fetch(Endpoints.Network)
    case ConnectPeers(peers) => Call(Endpoints.Peers, peers)
    case AskForRelay(peers) => Call(Endpoints.Relay, peers)
    case PubkeyToAddr(pubkey) => Call(Endpoints.PubkeyToAddr, Dict([("encoded_pubkey", Str(pubkey))]))
    case RefreshToken => Fetch(Endpoints.RefreshToken)
    case ListToken => Fetch(Endpoints.TokenList)
    case CreateGroup(name, appKey, consensusType, encryptionType, includeChainUrl) =>
      Call(Endpoints.CreateGroup, Dict([
        ("group_name", Str(name)), ("app_key", Str(appKey)), ("consensus_type", Str(Lower(consensusType))),
        ("encryption_type", Str(Lower(encryptionType))), ("include_chain_url", Bool(includeChainUrl))]))
    case JoinGroup(seed) => Call(Endpoints.JoinGroup, Dict([("seed", Str(seed))]))
    case AddProducer(pubkeys, pg) =>
      Call(Endpoints.UpdateConsensus, Dict([("producer_pubkey", pubkeys), ("group_id", OptStr(pg)), ("action", Str("add"))]))
    case RemoveProducer(pubkeys, pg) =>
      Call(Endpoints.UpdateConsensus, Dict([("producer_pubkey", pubkeys), ("group_id", OptStr(pg)), ("action", Str("remove"))]))
    case UpdateUser(payload) => Call(Endpoints.UpdateUser, payload)
    case LeaveGroup => Call(Endpoints.LeaveGroup, Dict([("group_id", Str(g))]))
    case ClearGroup => Call(Endpoints.ClearGroup, Dict([("group_id", Str(g))]))
    case Pubqueue => Fetch(Endpoints.Pubqueue(g))
    case Keylist => Fetch(Endpoints.AppconfigKeylist(g))
    case Key(key) => Fetch(Endpoints.AppconfigKey(g, key))
    case AllowList => Fetch(Endpoints.AllowList(g))
    case DenyList => Fetch(Endpoints.DenyList(g))
    case AnnouncedProducers => Fetch(Endpoints.AnnouncedProducers(g))
    case AnnounceAsProducer(memo) =>
      Call(Endpoints.Announce, Announcement(g, "add", "producer", MemoOr(memo, "announce self as producer")))
    case AnnounceAsProducerToRemove(memo) =>
      Call(Endpoints.Announce, Announcement(g, "remove", "producer", MemoOr(memo, "announce self as producer to remove")))
    case Consensus => Fetch(Endpoints.Consensus(g))
    case ConsensusReq(reqId) => Fetch(Endpoints.ConsensusReq(g, reqId))
    case ConsensusLast => Fetch(Endpoints.ConsensusLast(g))
    case ConsensusHistory => Fetch(Endpoints.ConsensusHistory(g))
    case ConsensusCurrent => Fetch(Endpoints.ConsensusCurrent(g))
    case AnnouncedUsers => Fetch(Endpoints.AnnouncedUsers(g))
    case AnnouncedUser(pubkey) => Fetch(Endpoints.AnnouncedUser(g, pubkey))
    case AnnounceAsUser(memo) =>
      Call(Endpoints.Announce, Announcement(g, "add", "user", MemoOr(memo, "announce self as user")))
    case GroupInfo => Fetch(Endpoints.Group(g))
    case Seed(_) => Fetch(Endpoints.Seed(g))
    case PostContent(data) => Call(Endpoints.PostContent(g), Dict([("data", data)]))
    case GetBlock(blockId) => Fetch(Endpoints.Block(g, blockId))
    case StartSync => Fetch(Endpoints.StartSync(g))
    case GetTrx(trxId) => Fetch(Endpoints.Trx(g, trxId))
  }

  /** What a wrapper makes of the node's answer: one key's value when there is one
      (`resp.get(k, resp)`), an empty list for a falsy list answer, else the answer. */
  function Unwrap(w: Wrapper, resp: Value): (r: Result<Value>)
    ensures !(w.PubkeyToAddr? || w.Seed? || w.Pubqueue? || w.AllowList? || w.DenyList?) ==> r == Ok(resp)
    ensures w.PubkeyToAddr? || w.Seed? || w.Pubqueue? ==>
      var k := if w.PubkeyToAddr? then "addr" else if w.Seed? then "seed" else "Data";
      && (r.Ok? <==> resp.Dict?)
      && (resp.Dict? && k in Keys(resp.fields) ==> Some(r.value) == Find(resp.fields, k))
      && (resp.Dict? && k !in Keys(resp.fields) ==> r.value == resp)
    ensures w.AllowList? || w.DenyList? ==> r == Ok(if Truthy(resp) then resp else List([]))
  {
    match w
    case PubkeyToAddr(_) => Get(resp, "addr", resp)
    case Seed(_) => Get(resp, "seed", resp)
    case Pubqueue => Get(resp, "Data", resp)
    case AllowList => Ok(Or(resp, List([])))
    case DenyList => Ok(Or(resp, List([])))
    case _ => Ok(resp)
  }

  /** The wrapper's request for group `g`, and what it returns. */
  function Answer(node: Node, log: seq<Call>, w: Wrapper, g: string): Sent<Value>
  {
    var c := WrapperCall(w, g);
    Sent(Unwrap(w, node(log, c)), log + [c])
  }

  /** A thin wrapper: its guard, then its one request. */
  function WrapSpec(node: Node, log: seq<Call>, w: Wrapper, arg: Option<string>, current: Option<string>)
    : (s: Sent<Value>)
    ensures GuardOf(w) == Unguarded ==> s == Answer(node, log, w, "")
    ensures GuardOf(w) == NeedsId ==>
      s == if GroupIdOf(arg, current).Err? then Sent(Err(ParamValue("group_id is required")), log)
           else Answer(node, log, w, GroupIdOf(arg, current).value)
    ensures GuardOf(w) == NeedsJoined ==> var j := JoinedSpec(node, log, arg, current);
      s == if j.result.Err? then Sent(Err(j.result.failure), j.log)
           else Answer(node, j.log, w, j.result.value)
  {
    match GuardOf(w)
    case Unguarded => Answer(node, log, w, "")
    case NeedsId =>
      (match GroupIdOf(arg, current)
       case Err(f) => Sent(Err(f), log)
       case Ok(g) => Answer(node, log, w, g))
    case NeedsJoined =>
      var j := JoinedSpec(node, log, arg, current);
      if j.result.Err? then Sent(Err(j.result.failure), j.log) else Answer(node, j.log, w, j.result.value)
  }

  /** The guarded wrappers whose request names the group in its body rather than
      in its path. */
  predicate NamesGroupInBody(w: Wrapper)
  {
    w.LeaveGroup? || w.ClearGroup? || w.AnnounceAsProducer? || w.AnnounceAsProducerToRemove? || w.AnnounceAsUser?
  }

  lemma WrapperPathNamesGroup(w: Wrapper, g: string)
    requires GuardOf(w) != Unguarded && !NamesGroupInBody(w)
    ensures Endpoints.ScopeOf(WrapperCall(w, g).endpoint) == Some(g)
  {
  }

  lemma WrapperBodyNamesGroup(w: Wrapper, g: string)
    requires NamesGroupInBody(w)
    ensures Index(WrapperCall(w, g).payload, "group_id") == Ok(Str(g))
  {
    var body := WrapperCall(w, g).payload;
    assert body.Dict? && body.fields != [] && body.fields[0] == ("group_id", Str(g));
    assert Find(body.fields, "group_id") == Some(Str(g));
  }

  /** A wrapper runs a guard exactly when its request is about a group, named in its
      path or as the `group_id` of its body. */
  lemma GuardedExactlyWhenScoped(w: Wrapper, g: string)
    ensures GuardOf(w) == Unguarded <==>
      Endpoints.ScopeOf(WrapperCall(w, g).endpoint).None? && !NamesGroupInBody(w)
  {
    if GuardOf(w) != Unguarded && !NamesGroupInBody(w) {
      WrapperPathNamesGroup(w, g);
    }
  }

  /** The wrappers whose request goes to a helper base.py does not define. */
  lemma UnroutedWrappers(w: Wrapper, g: string)
    ensures Endpoints.RouteOf(WrapperCall(w, g).endpoint).None? <==>
      w.ListToken? || w.AddProducer? || w.RemoveProducer? || w.UpdateUser? || w.Consensus? || w.ConsensusReq?
      || w.ConsensusLast? || w.ConsensusHistory? || w.ConsensusCurrent?
  {
  }

  /** Every guarded wrapper's request is about the group its guard resolved: the
      group is in the path, or is the `group_id` of the body. */
  lemma WrapperTargetsGroup(w: Wrapper, g: string)
    requires GuardOf(w) != Unguarded
    ensures var c := WrapperCall(w, g);
      Endpoints.ScopeOf(c.endpoint) == Some(g) || Index(c.payload, "group_id") == Ok(Str(g))
  {
    if NamesGroupInBody(w) {
      WrapperBodyNamesGroup(w, g);
    } else {
      WrapperPathNamesGroup(w, g);
    }
  }

  /** `get_consensus` and `get_consensus_req` on a group already resolved: one
      request each, answered as it is. */
  lemma ConsensusRequests(node: Node, log: seq<Call>, g: string, reqId: Value, current: Option<string>)
    requires g != ""
    ensures var c := Fetch(Endpoints.Consensus(g));
      WrapSpec(node, log, Consensus, Some(g), current) == Sent(Ok(node(log, c)), log + [c])
    ensures var c := Fetch(Endpoints.ConsensusReq(g, reqId));
      WrapSpec(node, log, ConsensusReq(reqId), Some(g), current) == Sent(Ok(node(log, c)), log + [c])
  {
  }

  /* ------------------------------------------------------------- listing */

  /** The arguments of `get_content` besides the group id. */
  datatype Listing = Listing(startTrx: Option<string>, num: int, reverse: bool, includeStartTrx: bool,
                             senders: seq<string>)

  /** The parameter dict `get_content` builds, in insertion order. */
  function ContentParams(l: Listing): (q: Endpoints.Query)
    ensures |q| == 2 + (if TruthyStr(l.startTrx) then 2 else 0) + (if l.senders != [] then 1 else 0)
    ensures q[0] == ("num", Endpoints.QInt(l.num)) && q[1] == ("reverse", Endpoints.QBool(l.reverse))
    ensures TruthyStr(l.startTrx) ==>
      q[2] == ("start_trx", Endpoints.QStr(l.startTrx.value))
      && q[3] == ("include_start_trx", Endpoints.QBool(l.includeStartTrx))
    ensures l.senders != [] ==> q[|q| - 1] == ("senders", Endpoints.QList(l.senders))
  {
    var base := [("num", Endpoints.QInt(l.num)), ("reverse", Endpoints.QBool(l.reverse))];
    var withStart := if TruthyStr(l.startTrx) then
        base + [("start_trx", Endpoints.QStr(l.startTrx.value)), ("include_start_trx", Endpoints.QBool(l.includeStartTrx))]
      else base;
    if l.senders != [] then withStart + [("senders", Endpoints.QList(l.senders))] else withStart
  }

  /** The listing request always carries a query string, behind the bare
      `/app/api/v1/group/{id}/content` path. */
  lemma ListingAlwaysQueried(g: string, l: Listing)
    requires '?' !in g
    ensures var path := Endpoints.ContentPath(g, ContentParams(l));
      && '?' in path
      && TakeUntil(path, '?') == Endpoints.PathOf(["app", "api", "v1", "group", g, "content"])
  {
    Endpoints.ContentQueryMarker(g, ContentParams(l));
  }

  /** The decoding step of `get_content` on one listed trx: a dict whose `Data`
      decodes gets the decoded value in its place; anything else (a private trx
      without `Data`, data that is not base64 JSON, an entry that is not a dict) is
      kept as it came. `decode` stands for `json.loads(base64.b64decode(_))`. */
  function DecodeTrx(decode: Value -> Option<Value>, trx: Value): (r: Value)
    ensures !trx.Dict? ==> r == trx
    ensures trx.Dict? ==> r.Dict? && Keys(r.fields) == Keys(trx.fields)
    ensures trx.Dict? ==> forall k :: k != "Data" ==> Find(r.fields, k) == Find(trx.fields, k)
    ensures trx.Dict? ==> (Find(r.fields, "Data") ==
      match Find(trx.fields, "Data")
      case None => None
      case Some(data) => if decode(data).Some? then decode(data) else Some(data))
  {
    if trx.Dict? && "Data" in Keys(trx.fields) then
      var data := GetOr(trx.fields, "Data", Null);
      match decode(data)
      case Some(d) => Dict(Put(trx.fields, "Data", d))
      case None => trx
    else trx
  }

  /** Every entry of the listing, decoded. */
  function DecodeAll(decode: Value -> Option<Value>, items: seq<Value>): (r: seq<Value>)
    ensures |r| == |items| && forall i :: 0 <= i < |items| ==> r[i] == DecodeTrx(decode, items[i])
  {
    seq(|items|, i requires 0 <= i < |items| => DecodeTrx(decode, items[i]))
  }

  /** Decoding one more entry extends the decoded prefix by that entry. */
  lemma DecodeAllSnoc(decode: Value -> Option<Value>, items: seq<Value>, i: nat)
    requires i < |items|
    ensures DecodeAll(decode, items[..i + 1]) == DecodeAll(decode, items[..i]) + [DecodeTrx(decode, items[i])]
  {
    var longer := DecodeAll(decode, items[..i + 1]);
    var shorter := DecodeAll(decode, items[..i]);
    assert forall j :: 0 <= j < i ==> longer[j] == shorter[j];
  }

  /** `get_content`: the group id, one listing request, its entries decoded. */
  function GetContentSpec(node: Node, decode: Value -> Option<Value>, log: seq<Call>, arg: Option<string>,
                          current: Option<string>, l: Listing): (s: Sent<seq<Value>>)
    ensures GroupIdOf(arg, current).Err? ==> s == Sent(Err(ParamValue("group_id is required")), log)
    ensures GroupIdOf(arg, current).Ok? ==>
      var c := Fetch(Endpoints.Content(GroupIdOf(arg, current).value, ContentParams(l)));
      && s.log == log + [c]
      && (s.result.Ok? <==> Iterate(node(log, c)).Ok?)
      && (s.result.Ok? ==> s.result.value == DecodeAll(decode, Iterate(node(log, c)).value))
  {
    match GroupIdOf(arg, current)
    case Err(f) => Sent(Err(f), log)
    case Ok(g) =>
      var c := Fetch(Endpoints.Content(g, ContentParams(l)));
      match Iterate(node(log, c))
      case Err(f) => Sent(Err(f), log + [c])
      case Ok(items) => Sent(Ok(DecodeAll(decode, items)), log + [c])
  }

  /** The listing `trx` asks for: the one trx starting at `trxId`, itself included. */
  function TrxPage(trxId: string): Listing
  {
    Listing(Some(trxId), 1, false, true, [])
  }

  /** `trx`: an empty dict for a falsy id; else the first entry of the one-entry
      listing starting at the id, falling back to `get_trx` when the listing is
      empty. */
  function TrxSpec(node: Node, decode: Value -> Option<Value>, log: seq<Call>, trxId: Option<string>,
                   arg: Option<string>, current: Option<string>): (s: Sent<Value>)
    ensures !TruthyStr(trxId) ==> s == Sent(Ok(Dict([])), log)
  {
    if !TruthyStr(trxId) then Sent(Ok(Dict([])), log)
    else
      var page := GetContentSpec(node, decode, log, arg, current, TrxPage(trxId.value));
      if page.result.Err? then Sent(Err(page.result.failure), page.log)
      else if page.result.value != [] then Sent(Ok(page.result.value[0]), page.log)
      else WrapSpec(node, page.log, GetTrx(trxId.value), arg, current)
  }

  /** With an id, `trx` first sends the one-entry listing starting at that trx; when
      the listing names one it is the answer, after exactly that request. */
  lemma TrxListsFirst(node: Node, decode: Value -> Option<Value>, log: seq<Call>, id: string,
                      arg: Option<string>, current: Option<string>)
    requires id != "" && GroupIdOf(arg, current).Ok?
    ensures var g := GroupIdOf(arg, current).value;
      var q := [("num", Endpoints.QInt(1)), ("reverse", Endpoints.QBool(false)),
                ("start_trx", Endpoints.QStr(id)), ("include_start_trx", Endpoints.QBool(true))];
      var c := Fetch(Endpoints.Content(g, q));
      var s := TrxSpec(node, decode, log, Some(id), arg, current);
      && |s.log| > |log| && s.log[..|log| + 1] == log + [c]
      && (Iterate(node(log, c)).Ok? && Iterate(node(log, c)).value != [] ==>
            s == Sent(Ok(DecodeTrx(decode, Iterate(node(log, c)).value[0])), log + [c]))
      && (Iterate(node(log, c)) == Ok([]) ==> s == WrapSpec(node, log + [c], GetTrx(id), arg, current))
      && (Iterate(node(log, c)).Err? ==> s == Sent(Err(Iterate(node(log, c)).failure), log + [c]))
  {
    var g := GroupIdOf(arg, current).value;
    var q := ContentParams(TrxPage(id));
    assert q == [("num", Endpoints.QInt(1)), ("reverse", Endpoints.QBool(false)),
                 ("start_trx", Endpoints.QStr(id)), ("include_start_trx", Endpoints.QBool(true))];
    var c := Fetch(Endpoints.Content(g, q));
    var page := GetContentSpec(node, decode, log, arg, current, TrxPage(id));
    var s := TrxSpec(node, decode, log, Some(id), arg, current);
    assert page.log == log + [c];
    if page.result.Ok? && page.result.value == [] {
      var rest := WrapSpec(node, page.log, GetTrx(id), arg, current);
      assert s == rest;
      assert rest.log[..|page.log|] == page.log;
    }
    assert s.log[..|log| + 1] == log + [c];
  }

  /* ---------------------------------------------------------------- acks */

  /** `ack`: nothing to send for an empty list; else one acknowledgement of all the
      ids. */
  function AckSpec(node: Node, log: seq<Call>, trxIds: Value): (s: Sent<Value>)
    ensures trxIds == List([]) ==> s == Sent(Ok(Bool(true)), log)
    ensures trxIds != List([]) ==>
      s.log == log + [Call(Endpoints.PubqueueAck, Dict([("trx_ids", trxIds)]))] && s.result.Ok?
  {
    if trxIds == List([]) then Sent(Ok(Bool(true)), log)
    else
      var c := Call(Endpoints.PubqueueAck, Dict([("trx_ids", trxIds)]));
      Sent(Ok(node(log, c)), log + [c])
  }

  /** One entry of the publish queue: its trx id when it failed, nothing when it did
      not; the `State` is read first and only a failed entry's `Trx.TrxId` is. */
  function FailedIdOf(entry: Value): (r: Result<seq<Value>>)
    ensures r.Ok? ==> |r.value| <= 1
    ensures Index(entry, "State").Ok? && Index(entry, "State").value != Str("FAIL") ==> r == Ok([])
    ensures Index(entry, "State") == Ok(Str("FAIL")) ==>
      (r.Ok? <==> Index(entry, "Trx").Ok? && Index(Index(entry, "Trx").value, "TrxId").Ok?)
  {
    var state :- Index(entry, "State");
    if state == Str("FAIL") then
      var trx :- Index(entry, "Trx");
      var id :- Index(trx, "TrxId");
      Ok([id])
    else Ok([])
  }

  /** The ids of the failed entries of the publish queue, in order. */
  function FailedTrxIds(items: seq<Value>): (r: Result<seq<Value>>)
    ensures r.Ok? ==> |r.value| <= |items|
  {
    if items == [] then Ok([])
    else
      var first :- FailedIdOf(items[0]);
      var rest :- FailedTrxIds(items[1..]);
      Ok(first + rest)
  }

  /** One well-formed queue entry contributes its trx id exactly when it failed. */
  lemma FailedTrxIdsOne(state: Value, id: Value)
    ensures FailedTrxIds([Dict([("State", state), ("Trx", Dict([("TrxId", id)]))])])
         == Ok(if state == Str("FAIL") then [id] else [])
  {
    var trx := Dict([("TrxId", id)]);
    var entry := Dict([("State", state), ("Trx", trx)]);
    FindEntry([("State", state), ("Trx", trx)], 0);
    FindEntry([("State", state), ("Trx", trx)], 1);
    FindEntry([("TrxId", id)], 0);
    assert Index(entry, "State") == Ok(state);
    assert Index(entry, "Trx") == Ok(trx);
    assert Index(trx, "TrxId") == Ok(id);
    assert FailedIdOf(entry) == Ok(if state == Str("FAIL") then [id] else []);
    assert [entry][0] == entry && [entry][1..] == [];
    var ids := FailedIdOf(entry).value;
    assert FailedTrxIds([entry]) == Ok(ids + []) && ids + [] == ids;
  }

  lemma IdsAssoc(x: seq<Value>, y: seq<Value>, z: seq<Value>)
    ensures x + y + z == x + (y + z)
  {
  }

  /** The failed ids of a queue are those of its parts, in order; the first entry
      that cannot be read decides the error. */
  lemma {:induction false} FailedTrxIdsConcat(a: seq<Value>, b: seq<Value>)
    ensures FailedTrxIds(a).Err? ==> FailedTrxIds(a + b) == FailedTrxIds(a)
    ensures FailedTrxIds(a).Ok? ==> (FailedTrxIds(a + b) ==
      if FailedTrxIds(b).Ok? then Ok(FailedTrxIds(a).value + FailedTrxIds(b).value) else FailedTrxIds(b))
  {
    if a != [] {
      var ab := a + b;
      assert ab[0] == a[0];
      assert ab[1..] == a[1..] + b;
      FailedTrxIdsConcat(a[1..], b);
      var head := FailedIdOf(a[0]);
      if head.Ok? {
        var tail := FailedTrxIds(a[1..]);
        assert FailedTrxIds(a) == if tail.Ok? then Ok(head.value + tail.value) else Err(tail.failure);
        var tailB := FailedTrxIds(a[1..] + b);
        assert FailedTrxIds(ab) == if tailB.Ok? then Ok(head.value + tailB.value) else Err(tailB.failure);
        if tail.Ok? && FailedTrxIds(b).Ok? {
          IdsAssoc(head.value, tail.value, FailedTrxIds(b).value);
        }
      }
    } else {
      assert a + b == b;
      if FailedTrxIds(b).Ok? {
        assert [] + FailedTrxIds(b).value == FailedTrxIds(b).value;
      }
    }
  }

  /** `autoack`: the group id, the publish queue, then `ack` of its failed trx ids. */
  function AutoAckSpec(node: Node, log: seq<Call>, arg: Option<string>, current: Option<string>): (s: Sent<Value>)
    ensures GroupIdOf(arg, current).Err? ==> s == Sent(Err(ParamValue("group_id is required")), log)
    ensures log <= s.log
  {
    match GroupIdOf(arg, current)
    case Err(f) => Sent(Err(f), log)
    case Ok(g) =>
      var queue := WrapSpec(node, log, Pubqueue, Some(g), current);
      if queue.result.Err? then queue
      else match Iterate(queue.result.value)
        case Err(f) => Sent(Err(f), queue.log)
        case Ok(items) =>
          match FailedTrxIds(items)
          case Err(f) => Sent(Err(f), queue.log)
          case Ok(ids) => AckSpec(node, queue.log, List(ids))
  }

  /** `autoack` reads the queue once and acknowledges its failed ids in one request,
      or sends nothing more when none failed. */
  lemma AutoAckShape(node: Node, log: seq<Call>, arg: Option<string>, current: Option<string>)
    requires GroupIdOf(arg, current).Ok?
    ensures var g := GroupIdOf(arg, current).value;
      var q := Fetch(Endpoints.Pubqueue(g));
      var s := AutoAckSpec(node, log, arg, current);
      var items := Get(node(log, q), "Data", node(log, q));
      && s.log[..|log| + 1] == log + [q]
      && (items.Ok? && Iterate(items.value).Ok? && FailedTrxIds(Iterate(items.value).value).Ok? ==>
            var ids := FailedTrxIds(Iterate(items.value).value).value;
            s.result.Ok?
            && s.log == log + [q] + (if ids == [] then [] else [Call(Endpoints.PubqueueAck, Dict([("trx_ids", List(ids))]))]))
  {
    var g := GroupIdOf(arg, current).value;
    assert GroupIdOf(Some(g), current) == Ok(g);
    var q := Fetch(Endpoints.Pubqueue(g));
    var queue := WrapSpec(node, log, Pubqueue, Some(g), current);
    assert queue == Sent(Get(node(log, q), "Data", node(log, q)), log + [q]);
    var s := AutoAckSpec(node, log, arg, current);
    if queue.result.Ok? && Iterate(queue.result.value).Ok? && FailedTrxIds(Iterate(queue.result.value).value).Ok? {
      var ids := FailedTrxIds(Iterate(queue.result.value).value).value;
      assert s == AckSpec(node, log + [q], List(ids));
      assert (List(ids) == List([])) == (ids == []);
    }
    assert s.log[..|log| + 1] == log + [q];
  }

  /* ---------------------------------------------------- owner-guarded posts */

  /** An owner-guarded operation: the owner guard, then the payload built for the
      resolved group (which may reject its arguments), then one post to `e`. */
  function OwnerPost(node: Node, log: seq<Call>, arg: Option<string>, current: Option<string>,
                     payload: string -> Result<Value>, e: Endpoints.Endpoint): (s: Sent<Value>)
    ensures var o := OwnerSpec(node, log, arg, current);
      && (o.result.Err? ==> s == Sent(Err(o.result.failure), o.log))
      && (o.result.Ok? && payload(o.result.value).Err? ==> s == Sent(Err(payload(o.result.value).failure), o.log))
      && (o.result.Ok? && payload(o.result.value).Ok? ==>
            s.result.Ok? && s.log == o.log + [Call(e, payload(o.result.value).value)])
  {
    var o := OwnerSpec(node, log, arg, current);
    if o.result.Err? then Sent(Err(o.result.failure), o.log)
    else match payload(o.result.value)
      case Err(f) => Sent(Err(f), o.log)
      case Ok(p) => var c := Call(e, p); Sent(Ok(node(o.log, c)), o.log + [c])
  }

  /** The payload of `update_appconfig`: the action is matched ignoring case. */
  function AppconfigPayload(g: string, name: string, itemType: string, value: Value, action: string,
                            memo: Option<string>): (r: Result<Value>)
    ensures r.Ok? <==> Lower(action) == "add" || Lower(action) == "remove"
    ensures r.Err? ==> r == Err(ParamValue("action must be add or remove"))
  {
    if Lower(action) != "add" && Lower(action) != "remove" then Err(ParamValue("action must be add or remove"))
    else
      Ok(Dict([("action", Str(Lower(action))), ("group_id", Str(g)), ("name", Str(name)),
               ("type", Str(itemType)), ("value", value), ("memo", Str(MemoOr(memo, "update " + name)))]))
  }

  /** `update_appconfig`: owner guard, action check, one appconfig post. */
  function UpdateAppconfigSpec(node: Node, log: seq<Call>, name: string, itemType: string, value: Value,
                               action: string, memo: Option<string>, arg: Option<string>, current: Option<string>)
    : (s: Sent<Value>)
    ensures var o := OwnerSpec(node, log, arg, current);
      && (o.result.Ok? && AppconfigPayload(o.result.value, name, itemType, value, action, memo).Ok? ==>
            s.result.Ok? && s.log == o.log + [Call(Endpoints.Appconfig, AppconfigPayload(o.result.value, name, itemType, value, action, memo).value)])
      && (!(o.result.Ok? && AppconfigPayload(o.result.value, name, itemType, value, action, memo).Ok?) ==> s.result.Err? && s.log == o.log)
  {
    OwnerPost(node, log, arg, current, g => AppconfigPayload(g, name, itemType, value, action, memo), Endpoints.Appconfig)
  }

  /** An accepted appconfig item names the group, is sent with its action
      lowercased, carries the value as given and a memo defaulting to
      "update <name>". */
  lemma AppconfigPayloadShape(g: string, name: string, itemType: string, value: Value, action: string,
                              memo: Option<string>)
    requires Lower(action) == "add" || Lower(action) == "remove"
    ensures var r := AppconfigPayload(g, name, itemType, value, action, memo);
      && r.Ok?
      && Index(r.value, "action") == Ok(Str(Lower(action)))
      && Index(r.value, "group_id") == Ok(Str(g))
      && Index(r.value, "value") == Ok(value)
      && Index(r.value, "memo") == Ok(Str(MemoOr(memo, "update " + name)))
  {
    var fields := AppconfigPayload(g, name, itemType, value, action, memo).value.fields;
    FindEntry(fields, 0);
    FindEntry(fields, 1);
    FindEntry(fields, 4);
    FindEntry(fields, 5);
  }

  /** The config object `set_trx_auth` serialises. */
  function AuthConfig(trxType: string, mode: string): Value
  {
    Dict([("trx_type", Str(trxType)), ("trx_auth_mode", Str("follow_" + mode + "_list"))])
  }

  /** The payload of `set_trx_auth`: the mode is checked before the trx type. */
  function TrxAuthPayload(g: string, trxType: string, mode: string, memo: string): (r: Result<Value>)
    ensures CheckTrxMode(mode).Err? ==> r == Err(CheckTrxMode(mode).failure)
    ensures CheckTrxMode(mode).Ok? && CheckTrxType(trxType).Err? ==> r == Err(CheckTrxType(trxType).failure)
  {
    var m :- CheckTrxMode(mode);
    var t :- CheckTrxType(trxType);
    var config :- Dumps(AuthConfig(t, m));
    Ok(ChainconfigPayload(g, "set_trx_auth_mode", config, memo))
  }

  /** `set_trx_auth`: owner guard, mode and type checks, one chain config post. */
  function SetTrxAuthSpec(node: Node, log: seq<Call>, trxType: string, mode: string, memo: string,
                          arg: Option<string>, current: Option<string>): (s: Sent<Value>)
    ensures var o := OwnerSpec(node, log, arg, current);
      && (o.result.Ok? && TrxAuthPayload(o.result.value, trxType, mode, memo).Ok? ==>
            s.result.Ok? && s.log == o.log + [Call(Endpoints.Chainconfig, TrxAuthPayload(o.result.value, trxType, mode, memo).value)])
      && (!(o.result.Ok? && TrxAuthPayload(o.result.value, trxType, mode, memo).Ok?) ==> s.result.Err? && s.log == o.log)
  {
    OwnerPost(node, log, arg, current, g => TrxAuthPayload(g, trxType, mode, memo), Endpoints.Chainconfig)
  }

  /** With a valid mode and type, the payload names the group and carries as config
      the JSON text of the uppercased type and its `follow_<mode>_list`. */
  lemma TrxAuthPayloadShape(g: string, trxType: string, mode: string, memo: string)
    requires CheckTrxMode(mode).Ok? && CheckTrxType(trxType).Ok?
    ensures var r := TrxAuthPayload(g, trxType, mode, memo);
      var config := Dumps(AuthConfig(Upper(trxType), CheckTrxMode(mode).value));
      && config.Ok?
      && r.Ok?
      && Index(r.value, "group_id") == Ok(Str(g))
      && Index(r.value, "type") == Ok(Str("set_trx_auth_mode"))
      && Index(r.value, "config") == Ok(Str(config.value))
  {
    var m := CheckTrxMode(mode).value;
    DumpsStrPair("trx_type", Upper(trxType), "trx_auth_mode", "follow_" + m + "_list");
    var config := Dumps(AuthConfig(Upper(trxType), m)).value;
    ChainconfigPayloadShape(g, "set_trx_auth_mode", config, memo);
  }

  /** The body of a chain config post: the group, the kind of change, its JSON
      config and a memo. */
  function ChainconfigPayload(g: string, kind: string, config: string, memo: string): Value
  {
    Dict([("group_id", Str(g)), ("type", Str(kind)), ("config", Str(config)), ("Memo", Str(memo))])
  }

  lemma ChainconfigPayloadShape(g: string, kind: string, config: string, memo: string)
    ensures var v := ChainconfigPayload(g, kind, config, memo);
      && Index(v, "group_id") == Ok(Str(g))
      && Index(v, "type") == Ok(Str(kind))
      && Index(v, "config") == Ok(Str(config))
  {
    var fields := ChainconfigPayload(g, kind, config, memo).fields;
    FindEntry(fields, 0);
    FindEntry(fields, 1);
    FindEntry(fields, 2);
  }

  /** `[_check_trx_type(t) for t in trx_types]`: every item must be a listed type
      in any case; an item that is not a string has no `upper`. */
  function CheckTrxTypes(items: seq<Value>): (r: Result<seq<string>>)
    ensures r.Ok? <==> forall i :: 0 <= i < |items| ==> items[i].Str? && Upper(items[i].s) in TrxTypes
    ensures r.Ok? ==> |r.value| == |items| && forall i :: 0 <= i < |items| ==> r.value[i] == Upper(items[i].s)
  {
    if items == [] then Ok([])
    else if !items[0].Str? then Err(Unexpected("object has no attribute 'upper'"))
    else
      var head := CheckTrxType(items[0].s);
      var rest := CheckTrxTypes(items[1..]);
      if head.Err? then Err(head.failure)
      else if rest.Err? then Err(rest.failure)
      else Ok([head.value] + rest.value)
  }

  /** The config object `_update_list` serialises. */
  function ListConfig(action: string, pubkey: string, types: seq<string>): Value
  {
    Dict([("action", Str(action)), ("pubkey", Str(pubkey)), ("trx_type", StrList(types))])
  }

  /** The trx types `_update_list` edits: those given, else `["post"]`, each
      checked and uppercased. */
  function ListTypes(trxTypes: Value): Result<seq<string>>
  {
    var items :- Iterate(Or(trxTypes, StrList(["post"])));
    CheckTrxTypes(items)
  }

  /** Without trx types the list edit is about `POST`. */
  lemma ListTypesDefault()
    ensures ListTypes(Null) == Ok(["POST"])
  {
    assert StrList(["post"]).items == [Str("post")];
    assert Iterate(Or(Null, StrList(["post"]))) == Ok([Str("post")]);
    assert Upper("post") == "POST" by {
      assert Upper("post")[0] == 'P' && Upper("post")[1] == 'O';
      assert Upper("post")[2] == 'S' && Upper("post")[3] == 'T';
    }
    assert CheckTrxType("post") == Ok("POST");
    assert [Str("post")][1..] == [];
    assert CheckTrxTypes([Str("post")]) == Ok(["POST"] + []);
    assert ["POST"] + [] == ["POST"];
  }

  /** The payload of `_update_list`: the mode first, then the trx types, then the
      action, which here must be lowercase already. */
  function UpdateListPayload(g: string, pubkey: string, mode: string, memo: string, action: string,
                             trxTypes: Value): (r: Result<Value>)
    ensures CheckTrxMode(mode).Err? ==> r == Err(CheckTrxMode(mode).failure)
    ensures CheckTrxMode(mode).Ok? && ListTypes(trxTypes).Err? ==> r == Err(ListTypes(trxTypes).failure)
    ensures r.Ok? ==> action == "add" || action == "remove"
  {
    var m :- CheckTrxMode(mode);
    var types :- ListTypes(trxTypes);
    if action != "add" && action != "remove" then Err(ParamValue("action must be add or remove"))
    else
      var config :- Dumps(ListConfig(action, pubkey, types));
      Ok(ChainconfigPayload(g, "upd_" + m + "_list", config, memo))
  }

  /** `_update_list`: owner guard, mode, types and action checks, one chain config
      post. */
  function UpdateListSpec(node: Node, log: seq<Call>, pubkey: string, mode: string, memo: string, action: string,
                          trxTypes: Value, arg: Option<string>, current: Option<string>): (s: Sent<Value>)
    ensures var o := OwnerSpec(node, log, arg, current);
      && (o.result.Ok? && UpdateListPayload(o.result.value, pubkey, mode, memo, action, trxTypes).Ok? ==>
            s.result.Ok? && s.log == o.log + [Call(Endpoints.Chainconfig, UpdateListPayload(o.result.value, pubkey, mode, memo, action, trxTypes).value)])
      && (!(o.result.Ok? && UpdateListPayload(o.result.value, pubkey, mode, memo, action, trxTypes).Ok?) ==> s.result.Err? && s.log == o.log)
  {
    OwnerPost(node, log, arg, current, g => UpdateListPayload(g, pubkey, mode, memo, action, trxTypes),
              Endpoints.Chainconfig)
  }

  /** With a valid mode, valid trx types and a lowercase action, the payload edits
      the `<mode>` list of the group, with the JSON text of the action, the pubkey
      and the uppercased types as config. */
  lemma UpdateListPayloadShape(g: string, pubkey: string, mode: string, memo: string, action: string,
                               trxTypes: Value)
    requires CheckTrxMode(mode).Ok? && ListTypes(trxTypes).Ok? && (action == "add" || action == "remove")
    ensures var r := UpdateListPayload(g, pubkey, mode, memo, action, trxTypes);
      var config := Dumps(ListConfig(action, pubkey, ListTypes(trxTypes).value));
      && config.Ok?
      && r.Ok?
      && Index(r.value, "group_id") == Ok(Str(g))
      && Index(r.value, "type") == Ok(Str("upd_" + CheckTrxMode(mode).value + "_list"))
      && Index(r.value, "config") == Ok(Str(config.value))
  {
    var types := ListTypes(trxTypes).value;
    DumpsStrStrList("action", action, "pubkey", pubkey, "trx_type", types);
    var config := Dumps(ListConfig(action, pubkey, types)).value;
    ChainconfigPayloadShape(g, "upd_" + CheckTrxMode(mode).value + "_list", config, memo);
  }

  /** The four list edits of the façade, each a fixed mode, memo and action. */
  datatype ListEdit = AddAllow | RemoveAllow | AddDeny | RemoveDeny
  {
    function Mode(): string { if AddAllow? || RemoveAllow? then "alw" else "dny" }
    function Action(): string { if AddAllow? || AddDeny? then "add" else "remove" }
    function Memo(): string
    {
      match this
      case AddAllow => "add allow list"
      case RemoveAllow => "remove allow list"
      case AddDeny => "add deny list"
      case RemoveDeny => "remove deny list"
    }
  }

  lemma ModesLower()
    ensures Lower("alw") == "alw" && Lower("dny") == "dny"
  {
    assert Lower("alw") == "alw" by {
      assert Lower("alw")[0] == 'a' && Lower("alw")[1] == 'l' && Lower("alw")[2] == 'w';
    }
    assert Lower("dny") == "dny" by {
      assert Lower("dny")[0] == 'd' && Lower("dny")[1] == 'n' && Lower("dny")[2] == 'y';
    }
  }

  /** Without trx types every list edit goes through for `POST` alone, on the list
      its mode names. */
  lemma ListEditDefaults(edit: ListEdit, g: string, pubkey: string)
    ensures var r := UpdateListPayload(g, pubkey, edit.Mode(), edit.Memo(), edit.Action(), Null);
      && r.Ok?
      && Index(r.value, "type") == Ok(Str("upd_" + edit.Mode() + "_list"))
      && Dumps(ListConfig(edit.Action(), pubkey, ["POST"])).Ok?
      && Index(r.value, "config") == Ok(Str(Dumps(ListConfig(edit.Action(), pubkey, ["POST"])).value))
  {
    ListTypesDefault();
    ModesLower();
    assert CheckTrxMode(edit.Mode()) == Ok(edit.Mode());
    UpdateListPayloadShape(g, pubkey, edit.Mode(), edit.Memo(), edit.Action(), Null);
  }

  /** `update_appconfig` and `_approve_user` take the action in any case, while
      `_update_list` takes it only in lowercase. */
  lemma ActionCase(g: string, pubkey: string, memo: string)
    ensures AppconfigPayload(g, "name", "string", Str("v"), "ADD", None).Ok?
    ensures ApproveUserPayload(g, pubkey, "ADD").Ok?
    ensures UpdateListPayload(g, pubkey, "alw", memo, "ADD", Null).Err?
  {
    assert Lower("ADD") == "add";
  }

  /** The payload of `_approve_user`; the action is matched ignoring case. */
  function ApproveUserPayload(g: string, pubkey: string, action: string): (r: Result<Value>)
    ensures r.Ok? <==> Lower(action) == "add" || Lower(action) == "remove"
    ensures r.Err? ==> r == Err(ParamValue("action must be one of these: add, remove"))
  {
    if Lower(action) != "add" && Lower(action) != "remove" then
      Err(ParamValue("action must be one of these: add, remove"))
    else Ok(Dict([("user_pubkey", Str(pubkey)), ("group_id", Str(g)), ("action", Str(Lower(action)))]))
  }

  /** An accepted approval names the user and the group, with the action
      lowercased. */
  lemma ApproveUserPayloadShape(g: string, pubkey: string, action: string)
    requires Lower(action) == "add" || Lower(action) == "remove"
    ensures var r := ApproveUserPayload(g, pubkey, action);
      && r.Ok?
      && Index(r.value, "user_pubkey") == Ok(Str(pubkey))
      && Index(r.value, "group_id") == Ok(Str(g))
      && Index(r.value, "action") == Ok(Str(Lower(action)))
  {
    var fields := ApproveUserPayload(g, pubkey, action).value.fields;
    FindEntry(fields, 0);
    FindEntry(fields, 1);
    FindEntry(fields, 2);
  }

  /** `_approve_user` and the operations built on the owner guard. */
  function ApproveUserSpec(node: Node, log: seq<Call>, pubkey: string, action: string, arg: Option<string>,
                           current: Option<string>): (s: Sent<Value>)
    ensures var o := OwnerSpec(node, log, arg, current);
      && (o.result.Ok? && ApproveUserPayload(o.result.value, pubkey, action).Ok? ==>
            s.result.Ok? && s.log == o.log + [Call(Endpoints.User, ApproveUserPayload(o.result.value, pubkey, action).value)])
      && (!(o.result.Ok? && ApproveUserPayload(o.result.value, pubkey, action).Ok?) ==> s.result.Err? && s.log == o.log)
  {
    OwnerPost(node, log, arg, current, g => ApproveUserPayload(g, pubkey, action), Endpoints.User)
  }

  /* ----------------------------------------------------------- trx auth */

  /** The entry one auth answer adds: `rlt[resp["TrxType"]] = resp["AuthType"]`,
      which reads `AuthType` first. */
  function AuthEntry(resp: Value): (r: Result<(string, Value)>)
    ensures r.Ok? ==> Index(resp, "AuthType") == Ok(r.value.1) && Index(resp, "TrxType") == Ok(Str(r.value.0))
  {
    var auth :- Index(resp, "AuthType");
    var key :- Index(resp, "TrxType");
    if key.Str? then Ok((key.s, auth)) else Err(Unexpected("only text keys are modelled"))
  }

  /** `get_trx_auth`: the group id, the type check, then one request for that type. */
  function GetTrxAuthSpec(node: Node, log: seq<Call>, trxType: string, arg: Option<string>, current: Option<string>)
    : (s: Sent<Value>)
    ensures GroupIdOf(arg, current).Err? || CheckTrxType(trxType).Err? ==> s.result.Err? && s.log == log
    ensures GroupIdOf(arg, current).Ok? && CheckTrxType(trxType).Ok? ==>
      var c := Fetch(Endpoints.TrxAuth(GroupIdOf(arg, current).value, Upper(trxType)));
      s == Sent(Ok(node(log, c)), log + [c])
  {
    match GroupIdOf(arg, current)
    case Err(f) => Sent(Err(f), log)
    case Ok(g) =>
      match CheckTrxType(trxType)
      case Err(f) => Sent(Err(f), log)
      case Ok(t) => var c := Fetch(Endpoints.TrxAuth(g, t)); Sent(Ok(node(log, c)), log + [c])
  }

  /** The loop of `get_auth` from `types` on, each type checked by `check` (the
      type check of `get_trx_auth`) and asked for in group `g`, the answers
      collected into `acc`. */
  function AuthFrom(check: string -> Result<string>, node: Node, log: seq<Call>, g: string, types: seq<string>,
                    acc: seq<(string, Value)>): (s: Sent<seq<(string, Value)>>)
    decreases |types|
  {
    if types == [] then Sent(Ok(acc), log)
    else match check(types[0])
      case Err(f) => Sent(Err(f), log)
      case Ok(t) =>
        var c := Fetch(Endpoints.TrxAuth(g, t));
        match AuthEntry(node(log, c))
        case Err(f) => Sent(Err(f), log + [c])
        case Ok(entry) => AuthFrom(check, node, log + [c], g, types[1..], Put(acc, entry.0, entry.1))
  }

  /** One answered request of the loop: the rest of the loop starts after it, with
      its row put in. */
  lemma AuthFromStep(check: string -> Result<string>, node: Node, log: seq<Call>, g: string, types: seq<string>,
                     acc: seq<(string, Value)>, entry: (string, Value))
    requires types != [] && check(types[0]).Ok?
    requires AuthEntry(node(log, Fetch(Endpoints.TrxAuth(g, check(types[0]).value)))) == Ok(entry)
    ensures AuthFrom(check, node, log, g, types, acc)
         == AuthFrom(check, node, log + [Fetch(Endpoints.TrxAuth(g, check(types[0]).value))], g, types[1..],
                     Put(acc, entry.0, entry.1))
  {
  }

  /** The node's answers to `calls` sent one after the other after `log`: each
      answer is given with everything sent before it. */
  function AnswersTo(node: Node, log: seq<Call>, calls: seq<Call>): (r: seq<Value>)
    decreases |calls|
    ensures |r| == |calls|
    ensures calls != [] ==> r[0] == node(log, calls[0])
  {
    if calls == [] then [] else [node(log, calls[0])] + AnswersTo(node, log + [calls[0]], calls[1..])
  }

  /** Answer `i` is the node's answer to request `i` given the log before it and
      every request sent ahead of it. */
  lemma {:induction false} AnswersToEach(node: Node, log: seq<Call>, calls: seq<Call>)
    decreases |calls|
    ensures forall i :: 0 <= i < |calls| ==> AnswersTo(node, log, calls)[i] == node(log + calls[..i], calls[i])
  {
    if calls != [] {
      var c := calls[0];
      var tail := calls[1..];
      AnswersToEach(node, log + [c], tail);
      assert log + calls[..0] == log;
      forall i | 1 <= i < |calls|
        ensures AnswersTo(node, log, calls)[i] == node(log + calls[..i], calls[i])
      {
        assert AnswersTo(node, log, calls) == [node(log, c)] + AnswersTo(node, log + [c], tail);
        assert calls[..i] == [c] + tail[..i - 1];
        SendThenRest(log, c, tail[..i - 1]);
        assert tail[i - 1] == calls[i];
      }
    }
  }

  /** The rows a run of auth answers adds, failing at the first answer that cannot
      be read. */
  function AuthEntries(answers: seq<Value>): (r: Result<seq<(string, Value)>>)
    decreases |answers|
    ensures r.Ok? ==> |r.value| == |answers|
  {
    if answers == [] then Ok([])
    else
      var e := AuthEntry(answers[0]);
      var rest := AuthEntries(answers[1..]);
      if e.Err? then Err(e.failure)
      else if rest.Err? then rest
      else Ok([e.value] + rest.value)
  }

  /** The rows are read exactly when every answer reads, and then row `i` is what
      answer `i` says. */
  lemma {:induction false} AuthEntriesEach(answers: seq<Value>)
    decreases |answers|
    ensures AuthEntries(answers).Ok? <==> forall i :: 0 <= i < |answers| ==> AuthEntry(answers[i]).Ok?
    ensures AuthEntries(answers).Ok? ==>
      forall i :: 0 <= i < |answers| ==> AuthEntry(answers[i]) == Ok(AuthEntries(answers).value[i])
  {
    if answers != [] {
      var tail := answers[1..];
      var head := AuthEntry(answers[0]);
      var rest := AuthEntries(tail);
      AuthEntriesEach(tail);
      if head.Err? {
        assert AuthEntries(answers).Err?;
      } else if rest.Err? {
        var j :| 0 <= j < |tail| && AuthEntry(tail[j]).Err?;
        assert answers[j + 1] == tail[j];
        assert AuthEntries(answers).Err?;
      } else {
        var rows := [head.value] + rest.value;
        assert AuthEntries(answers) == Ok(rows);
        forall i | 0 <= i < |answers|
          ensures AuthEntry(answers[i]) == Ok(rows[i])
        {
          if i > 0 {
            assert answers[i] == tail[i - 1] && rows[i] == rest.value[i - 1];
          }
        }
      }
    }
  }

  /** A loop over listed types that finishes has read a row out of every answer,
      and its table is the rows put in one after the other. */
  lemma {:induction false} AuthFromTable(check: string -> Result<string>, node: Node, log: seq<Call>, g: string,
                                         types: seq<string>, acc: seq<(string, Value)>)
    requires forall i :: 0 <= i < |types| ==> check(types[i]) == Ok(types[i])
    decreases |types|
    ensures var s := AuthFrom(check, node, log, g, types, acc);
      var rows := AuthEntries(AnswersTo(node, log, AuthCalls(g, types)));
      s.result.Ok? ==> rows.Ok? && s.result.value == PutAll(acc, rows.value)
  {
    if types != [] {
      assert check(types[0]) == Ok(types[0]);
      var c := Fetch(Endpoints.TrxAuth(g, types[0]));
      var calls := AuthCalls(g, types);
      assert calls == [c] + AuthCalls(g, types[1..]);
      var answers := AnswersTo(node, log, calls);
      assert answers == [node(log, c)] + AnswersTo(node, log + [c], AuthCalls(g, types[1..]));
      var e := AuthEntry(node(log, c));
      if e.Ok? {
        var acc' := Put(acc, e.value.0, e.value.1);
        assert AuthFrom(check, node, log, g, types, acc) == AuthFrom(check, node, log + [c], g, types[1..], acc');
        assert forall i :: 0 <= i < |types[1..]| ==> types[1..][i] == types[i + 1];
        AuthFromTable(check, node, log + [c], g, types[1..], acc');
        assert answers[1..] == AnswersTo(node, log + [c], AuthCalls(g, types[1..]));
      }
    }
  }

  /** The auth requests for listed types, in order. */
  function AuthCalls(g: string, types: seq<string>): (r: seq<Call>)
    ensures |r| == |types| && forall i :: 0 <= i < |types| ==> r[i] == Fetch(Endpoints.TrxAuth(g, types[i]))
  {
    if types == [] then [] else [Fetch(Endpoints.TrxAuth(g, types[0]))] + AuthCalls(g, types[1..])
  }

  /** Sending `c` and then `rest` sends `[c] + rest`. */
  lemma SendThenRest(log: seq<Call>, c: Call, rest: seq<Call>)
    ensures (log + [c]) + rest == log + ([c] + rest)
  {
  }

  /** A log that extends `log + [c]` within `log + [c] + rest` extends `log` within
      `log + ([c] + rest)`. */
  lemma PrefixStep(log: seq<Call>, c: Call, rest: seq<Call>, longer: seq<Call>)
    requires log + [c] <= longer <= (log + [c]) + rest
    ensures log <= longer <= log + ([c] + rest) && |longer| > |log|
  {
    assert (log + [c]) + rest == log + ([c] + rest);
    assert longer[..|log|] == (log + [c])[..|log|] == log;
  }

  /** A loop over listed types that finishes has sent one auth request per type,
      in order. */
  lemma {:induction false} AuthFromCompletes(check: string -> Result<string>, node: Node, log: seq<Call>, g: string,
                                             types: seq<string>, acc: seq<(string, Value)>)
    requires forall i :: 0 <= i < |types| ==> check(types[i]) == Ok(types[i])
    decreases |types|
    ensures var s := AuthFrom(check, node, log, g, types, acc);
      s.result.Ok? ==> s.log == log + AuthCalls(g, types)
  {
    if types != [] {
      assert check(types[0]) == Ok(types[0]);
      var c := Fetch(Endpoints.TrxAuth(g, types[0]));
      var rest := AuthCalls(g, types[1..]);
      assert AuthCalls(g, types) == [c] + rest;
      var e := AuthEntry(node(log, c));
      if e.Ok? {
        var acc' := Put(acc, e.value.0, e.value.1);
        assert AuthFrom(check, node, log, g, types, acc) == AuthFrom(check, node, log + [c], g, types[1..], acc');
        assert forall i :: 0 <= i < |types[1..]| ==> types[1..][i] == types[i + 1];
        AuthFromCompletes(check, node, log + [c], g, types[1..], acc');
        SendThenRest(log, c, rest);
      }
    }
  }

  /** Whatever happens, a loop over listed types sends a prefix of their auth
      requests, and one at least before it fails. */
  lemma {:induction false} AuthFromWithin(check: string -> Result<string>, node: Node, log: seq<Call>, g: string,
                                          types: seq<string>, acc: seq<(string, Value)>)
    requires forall i :: 0 <= i < |types| ==> check(types[i]) == Ok(types[i])
    decreases |types|
    ensures var s := AuthFrom(check, node, log, g, types, acc);
      && log <= s.log <= log + AuthCalls(g, types)
      && (s.result.Err? ==> |s.log| > |log|)
  {
    if types == [] {
      assert log + AuthCalls(g, types) == log;
    } else {
      var c := Fetch(Endpoints.TrxAuth(g, types[0]));
      var rest := AuthCalls(g, types[1..]);
      assert AuthCalls(g, types) == [c] + rest;
      var e := AuthEntry(node(log, c));
      if e.Ok? {
        var acc' := Put(acc, e.value.0, e.value.1);
        assert forall i :: 0 <= i < |types[1..]| ==> types[1..][i] == types[i + 1];
        AuthFromWithin(check, node, log + [c], g, types[1..], acc');
        PrefixStep(log, c, rest, AuthFrom(check, node, log + [c], g, types[1..], acc').log);
      } else {
        PrefixStep(log, c, rest, log + [c]);
      }
    }
  }

  /** For listed types the loop only ever sends their auth requests, in order, one
      per type, and fails only on an answer it cannot read; when it finishes it has
      sent them all. */
  lemma AuthFromShape(check: string -> Result<string>, node: Node, log: seq<Call>, g: string,
                      types: seq<string>, acc: seq<(string, Value)>)
    requires forall i :: 0 <= i < |types| ==> check(types[i]) == Ok(types[i])
    ensures var s := AuthFrom(check, node, log, g, types, acc);
      && log <= s.log <= log + AuthCalls(g, types)
      && (s.result.Err? ==> |s.log| > |log|)
      && (s.result.Ok? ==> s.log == log + AuthCalls(g, types))
  {
    AuthFromWithin(check, node, log, g, types, acc);
    AuthFromCompletes(check, node, log, g, types, acc);
  }

  /** The loop only adds keys: every key it started with is a key of its result. */
  lemma {:induction false} AuthFromKeepsKeys(check: string -> Result<string>, node: Node, log: seq<Call>,
                                             g: string, types: seq<string>, acc: seq<(string, Value)>)
    decreases |types|
    ensures var s := AuthFrom(check, node, log, g, types, acc);
      s.result.Ok? ==> forall k :: k in Keys(acc) ==> k in Keys(s.result.value)
  {
    if types != [] && check(types[0]).Ok? {
      var c := Fetch(Endpoints.TrxAuth(g, check(types[0]).value));
      var e := AuthEntry(node(log, c));
      if e.Ok? {
        var acc' := Put(acc, e.value.0, e.value.1);
        assert forall k :: k in Keys(acc) ==> k in Keys(acc');
        AuthFromKeepsKeys(check, node, log + [c], g, types[1..], acc');
        assert AuthFrom(check, node, log, g, types, acc) == AuthFrom(check, node, log + [c], g, types[1..], acc');
      }
    }
  }

  /** `get_auth`: with the client's group, one auth request per trx type, in the
      listed order, collected into a dict from type to auth mode. */
  function GetAuthSpec(node: Node, log: seq<Call>, current: Option<string>): (s: Sent<Value>)
    ensures !TruthyStr(current) ==> s == Sent(Err(ParamValue("group_id is required")), log)
  {
    match GroupIdOf(None, current)
    case Err(f) => Sent(Err(f), log)
    case Ok(g) =>
      var rows := AuthFrom(CheckTrxType, node, log, g, TrxTypes, []);
      Sent(if rows.result.Ok? then Ok(Dict(rows.result.value)) else Err(rows.result.failure), rows.log)
  }

  /** `get_auth` asks about every listed type, in order, when it succeeds; it never
      sends anything else. */
  lemma GetAuthShape(node: Node, log: seq<Call>, current: Option<string>)
    requires TruthyStr(current)
    ensures var s := GetAuthSpec(node, log, current);
      && log <= s.log <= log + AuthCalls(current.value, TrxTypes)
      && (s.result.Err? ==> |s.log| > |log|)
      && (s.result.Ok? ==> s.result.value.Dict? && s.log == log + AuthCalls(current.value, TrxTypes))
      && (s.result.Ok? ==> var rows := AuthEntries(AnswersTo(node, log, AuthCalls(current.value, TrxTypes)));
            rows.Ok? && s.result.value == Dict(PutAll([], rows.value)))
  {
    forall i | 0 <= i < |TrxTypes|
      ensures CheckTrxType(TrxTypes[i]) == Ok(TrxTypes[i])
    {
      CheckTrxTypeAcceptsListed(TrxTypes[i]);
    }
    AuthFromShape(CheckTrxType, node, log, current.value, TrxTypes, []);
    AuthFromTable(CheckTrxType, node, log, current.value, TrxTypes, []);
  }

  /** What the table of `get_auth` holds: a row read out of each of the seven
      answers, the answer's `TrxType` mapped to its `AuthType`; a type is a key
      exactly when some answer names it, and it maps to the `AuthType` of the last
      answer that does. */
  lemma GetAuthTable(node: Node, log: seq<Call>, current: Option<string>, k: string)
    requires TruthyStr(current)
    ensures var s := GetAuthSpec(node, log, current);
      var answers := AnswersTo(node, log, AuthCalls(current.value, TrxTypes));
      var rows := AuthEntries(answers);
      s.result.Ok? ==>
        && rows.Ok? && |rows.value| == |TrxTypes| && s.result.value.Dict?
        && (forall i :: 0 <= i < |answers| ==>
              Index(answers[i], "TrxType") == Ok(Str(rows.value[i].0))
              && Index(answers[i], "AuthType") == Ok(rows.value[i].1))
        && (k in Keys(s.result.value.fields) <==> k in Keys(rows.value))
        && (forall i :: 0 <= i < |rows.value| && rows.value[i].0 == k && k !in Keys(rows.value[i + 1..]) ==>
              Find(s.result.value.fields, k) == Some(rows.value[i].1))
  {
    var s := GetAuthSpec(node, log, current);
    var answers := AnswersTo(node, log, AuthCalls(current.value, TrxTypes));
    GetAuthShape(node, log, current);
    if s.result.Ok? {
      var rows := AuthEntries(answers).value;
      assert s.result.value == Dict(PutAll([], rows));
      AuthEntriesEach(answers);
      forall i | 0 <= i < |answers|
        ensures Index(answers[i], "TrxType") == Ok(Str(rows[i].0)) && Index(answers[i], "AuthType") == Ok(rows[i].1)
      {
        assert AuthEntry(answers[i]) == Ok(rows[i]);
      }
      PutAllFind([], rows, k);
    }
  }

  /* -------------------------------------------------------- group network */

  /** The first network entry whose `GroupId` is `g`, if any reads that far: its
      `Peers`, or an empty list. */
  function PeersOf(groups: seq<Value>, g: string): (r: Result<Value>)
  {
    if groups == [] then Ok(List([]))
    else
      var id :- Get(groups[0], "GroupId", Null);
      if id == Str(g) then Get(groups[0], "Peers", List([]))
      else PeersOf(groups[1..], g)
  }

  /** Whether a network entry is a readable entry about another group. */
  predicate OtherGroup(entry: Value, g: string)
  {
    entry.Dict? && GetOr(entry.fields, "GroupId", Null) != Str(g)
  }

  /** The peers found are those of the first entry about the group, when every entry
      before it is about another group; with no entry about it, none. */
  lemma {:induction false} PeersOfFirstMatch(groups: seq<Value>, g: string, j: nat)
    requires j <= |groups| && forall i :: 0 <= i < j ==> OtherGroup(groups[i], g)
    ensures j == |groups| ==> PeersOf(groups, g) == Ok(List([]))
    ensures j < |groups| && groups[j].Dict? && GetOr(groups[j].fields, "GroupId", Null) == Str(g) ==>
      PeersOf(groups, g) == Ok(GetOr(groups[j].fields, "Peers", List([])))
  {
    if j > 0 {
      assert OtherGroup(groups[0], g);
      assert forall i :: 0 <= i < j - 1 ==> groups[1..][i] == groups[i + 1];
      PeersOfFirstMatch(groups[1..], g, j - 1);
    }
  }

  /** `group_network`: the group id, the network request, then its group entries. */
  function GroupNetworkSpec(node: Node, log: seq<Call>, arg: Option<string>, current: Option<string>)
    : (s: Sent<Value>)
    ensures GroupIdOf(arg, current).Ok? ==> s.log == log + [Fetch(Endpoints.Network)]
  {
    match GroupIdOf(arg, current)
    case Err(f) => Sent(Err(f), log)
    case Ok(g) =>
      var c := Fetch(Endpoints.Network);
      var groups := Get(node(log, c), "groups", List([]));
      if groups.Err? then Sent(Err(groups.failure), log + [c])
      else match Iterate(groups.value)
        case Err(f) => Sent(Err(f), log + [c])
        case Ok(entries) => Sent(PeersOf(entries, g), log + [c])
  }

  /* ------------------------------------------------------------ producers */

  /** `producers`: the `ProducerPubkey` of each producer of the consensus answer. */
  function ProducersSpec(node: Node, log: seq<Call>, arg: Option<string>, current: Option<string>)
    : (s: Sent<seq<Value>>)
    ensures s.log == WrapSpec(node, log, Consensus, arg, current).log
  {
    var cons := WrapSpec(node, log, Consensus, arg, current);
    if cons.result.Err? then Sent(Err(cons.result.failure), cons.log)
    else
      var bps := Get(cons.result.value, "producers", List([]));
      if bps.Err? then Sent(Err(bps.failure), cons.log)
      else match Iterate(bps.value)
        case Err(f) => Sent(Err(f), cons.log)
        case Ok(items) => Sent(IndexEach(items, "ProducerPubkey"), cons.log)
  }

  /* ------------------------------------------------------------ consensus */

  /** The arguments of `update_consensus` besides the group id; a missing number is
      None, a missing pubkey list is Null. */
  datatype ConsensusArgs = ConsensusArgs(startFromEpoch: Option<int>, trxEpochTick: Option<int>,
                                         agreementTickLength: Option<int>, agreementTickCount: Option<int>,
                                         producerPubkey: Value)

  /** The five settings `update_consensus` compares and sends. */
  datatype Settings = Settings(start: Value, tick: Value, length: Value, count: Value, producers: Value)

  /** The settings dict for group `g`, as compared and as posted; note the key
      `agreement_tick_Length`. */
  function SettingsDict(g: string, c: Settings): Value
  {
    Dict([("group_id", Str(g)), ("start_from_epoch", c.start), ("trx_epoch_tick", c.tick),
          ("agreement_tick_Length", c.length), ("agreement_tick_count", c.count),
          ("producer_pubkey", c.producers)])
  }

  /** Comparing the dicts is comparing the settings. */
  lemma SettingsDictInjective(g: string, a: Settings, b: Settings)
    ensures SettingsDict(g, a) == SettingsDict(g, b) <==> a == b
  {
    if SettingsDict(g, a) == SettingsDict(g, b) {
      assert SettingsDict(g, a).fields[1].1 == SettingsDict(g, b).fields[1].1;
      assert SettingsDict(g, a).fields[2].1 == SettingsDict(g, b).fields[2].1;
      assert SettingsDict(g, a).fields[3].1 == SettingsDict(g, b).fields[3].1;
      assert SettingsDict(g, a).fields[4].1 == SettingsDict(g, b).fields[4].1;
      assert SettingsDict(g, a).fields[5].1 == SettingsDict(g, b).fields[5].1;
    }
  }

  /** The first request of the consensus proof: none for a falsy list, else the
      `Req` of its first entry. */
  function FirstReq(reqs: Value): (r: Result<Value>)
    ensures !Truthy(reqs) ==> r == Ok(Dict([]))
    ensures Truthy(reqs) && reqs.List? ==> r == Index(reqs.items[0], "Req")
    ensures Truthy(reqs) && !reqs.List? ==> r.Err?
  {
    if !Truthy(reqs) then Ok(Dict([]))
    else if reqs.List? then Index(reqs.items[0], "Req")
    else Err(Unexpected("the proof responses are not a list"))
  }

  /** The first failed range check, if any; a falsy number is not checked. */
  function TickError(a: ConsensusArgs): (r: Option<string>)
    ensures r.None? <==>
      && (a.trxEpochTick.Some? && a.trxEpochTick.value != 0 ==> a.trxEpochTick.value >= 500)
      && (a.agreementTickLength.Some? && a.agreementTickLength.value != 0 ==> a.agreementTickLength.value >= 1000)
      && (a.agreementTickCount.Some? && a.agreementTickCount.value != 0 ==> a.agreementTickCount.value >= 10)
  {
    if a.trxEpochTick.Some? && a.trxEpochTick.value != 0 && a.trxEpochTick.value < 500 then
      Some("trx_epoch_tick should be greater than 500(ms)")
    else if a.agreementTickLength.Some? && a.agreementTickLength.value != 0 && a.agreementTickLength.value < 1000 then
      Some("agreement_tick_length should be greater than 1000(ms)")
    else if a.agreementTickCount.Some? && a.agreementTickCount.value != 0 && a.agreementTickCount.value < 10 then
      Some("agreement_tick_count should be greater than 10")
    else None
  }

  /** `value or default` for an optional number. */
  function IntOr(x: Option<int>, default: Value): (r: Value)
    ensures x.Some? && x.value != 0 ==> r == Int(x.value)
    ensures x.None? || x.value == 0 ==> r == default
  {
    if x.Some? && x.value != 0 then Int(x.value) else default
  }

  /** The settings now in force, read from the first request with the documented
      fallbacks 1, 500, 1000, 10 and no producers. */
  function Existing(req: Value): (r: Result<Settings>)
    ensures r.Ok? <==> req.Dict?
    ensures r.Ok? ==> r.value.start == Or(GetOr(req.fields, "StartFromEpoch", Null), Int(1))
    ensures r.Ok? ==> r.value.tick == Or(GetOr(req.fields, "TrxEpochTickLenInMs", Null), Int(500))
    ensures r.Ok? ==> r.value.length == Or(GetOr(req.fields, "AgreementTickLenInMs", Null), Int(1000))
    ensures r.Ok? ==> r.value.count == Or(GetOr(req.fields, "AgreementTickCount", Null), Int(10))
    ensures r.Ok? ==> r.value.producers == Or(GetOr(req.fields, "ProducerPubkeyList", Null), List([]))
  {
    if !req.Dict? then Err(Unexpected("object has no attribute 'get'"))
    else
      var f := req.fields;
      Ok(Settings(Or(GetOr(f, "StartFromEpoch", Null), Int(1)), Or(GetOr(f, "TrxEpochTickLenInMs", Null), Int(500)),
                  Or(GetOr(f, "AgreementTickLenInMs", Null), Int(1000)), Or(GetOr(f, "AgreementTickCount", Null), Int(10)),
                  Or(GetOr(f, "ProducerPubkeyList", Null), List([]))))
  }

  /** With no proof request the settings are the fallbacks. */
  lemma ExistingFallbacks()
    ensures Existing(Dict([])) == Ok(Settings(Int(1), Int(500), Int(1000), Int(10), List([])))
  {
  }

  /** The settings to send: a start epoch of None means 1; every other missing or
      zero argument keeps the setting in force. */
  function Planned(a: ConsensusArgs, e: Settings): (p: Settings)
    ensures a.trxEpochTick.Some? && a.trxEpochTick.value != 0 ==> p.tick == Int(a.trxEpochTick.value)
    ensures a.agreementTickLength.Some? && a.agreementTickLength.value != 0 ==>
      p.length == Int(a.agreementTickLength.value)
    ensures a.agreementTickCount.Some? && a.agreementTickCount.value != 0 ==> p.count == Int(a.agreementTickCount.value)
    ensures Truthy(a.producerPubkey) ==> p.producers == a.producerPubkey
    ensures a.startFromEpoch.Some? && a.startFromEpoch.value != 0 ==> p.start == Int(a.startFromEpoch.value)
  {
    var start := if a.startFromEpoch.None? then 1 else a.startFromEpoch.value;
    Settings(IntOr(Some(start), e.start), IntOr(a.trxEpochTick, e.tick), IntOr(a.agreementTickLength, e.length),
             IntOr(a.agreementTickCount, e.count), Or(a.producerPubkey, e.producers))
  }

  /** The plan keeps exactly what the arguments leave open, and replaying it on
      what it planned changes nothing more. */
  lemma PlannedMerge(a: ConsensusArgs, e: Settings)
    ensures a.trxEpochTick.None? ==> Planned(a, e).tick == e.tick
    ensures a.agreementTickLength.None? ==> Planned(a, e).length == e.length
    ensures a.agreementTickCount.None? ==> Planned(a, e).count == e.count
    ensures !Truthy(a.producerPubkey) ==> Planned(a, e).producers == e.producers
    ensures a.startFromEpoch.None? ==> Planned(a, e).start == Int(1)
    ensures Planned(a, Planned(a, e)) == Planned(a, e)
  {
  }

  /** Without arguments the start epoch is reset to 1: there is nothing to update
      exactly when it is 1 already. */
  lemma NoArgumentsResetStart(e: Settings)
    ensures var none := ConsensusArgs(None, None, None, None, Null);
      Planned(none, e) == e <==> e.start == Int(1)
  {
  }

  /** The two reads `update_consensus` makes before deciding: the consensus, then
      the proof request it names; the result is that proof's first request. */
  function ProofReq(node: Node, log: seq<Call>, g: string): (s: Sent<Value>)
    ensures log + [Fetch(Endpoints.Consensus(g))] <= s.log
    ensures s.result.Ok? ==> |s.log| == |log| + 2
    ensures var c1 := Fetch(Endpoints.Consensus(g));
      var reqId := Get(node(log, c1), "proof_req_id", Null);
      && (reqId.Err? ==> s == Sent(Err(reqId.failure), log + [c1]))
      && (reqId.Ok? ==>
            var c2 := Fetch(Endpoints.ConsensusReq(g, reqId.value));
            var reqs := Get(node(log + [c1], c2), "resps", List([]));
            && s.log == log + [c1, c2]
            && (reqs.Ok? ==> s.result == FirstReq(reqs.value))
            && (reqs.Err? ==> s.result == Err(reqs.failure)))
  {
    var c1 := Fetch(Endpoints.Consensus(g));
    match Get(node(log, c1), "proof_req_id", Null)
    case Err(f) => Sent(Err(f), log + [c1])
    case Ok(reqId) =>
      var c2 := Fetch(Endpoints.ConsensusReq(g, reqId));
      match Get(node(log + [c1], c2), "resps", List([]))
      case Err(f) => Sent(Err(f), log + [c1, c2])
      case Ok(reqs) => Sent(FirstReq(reqs), log + [c1, c2])
  }

  /** `update_consensus`: the group id, the two reads, the range checks, then either
      "Nothing to update" or one post of the planned settings. */
  function UpdateConsensusSpec(node: Node, log: seq<Call>, a: ConsensusArgs, arg: Option<string>,
                               current: Option<string>): (s: Sent<Value>)
    ensures GroupIdOf(arg, current).Err? ==> s == Sent(Err(ParamValue("group_id is required")), log)
    ensures log <= s.log
  {
    match GroupIdOf(arg, current)
    case Err(f) => Sent(Err(f), log)
    case Ok(g) =>
      var p := ProofReq(node, log, g);
      if p.result.Err? then Sent(Err(p.result.failure), p.log)
      else if TickError(a).Some? then Sent(Err(ValueError(TickError(a).value)), p.log)
      else match Existing(p.result.value)
        case Err(f) => Sent(Err(f), p.log)
        case Ok(e) =>
          var planned := Planned(a, e);
          if SettingsDict(g, planned) == SettingsDict(g, e) then
            Sent(Ok(Dict([("message", Str("Nothing to update"))])), p.log)
          else if !Orderable(planned.tick, planned.length) then
            Sent(Err(Unexpected("'<' not supported between trx_epoch_tick and agreement_tick_Length")), p.log)
          else
            var c := Call(Endpoints.UpdateConsensus, SettingsDict(g, planned));
            Sent(Ok(node(p.log, c)), p.log + [c])
  }

  /** `update_consensus` first reads the consensus; the range checks come after both
      reads and stop before any post; when the reads and checks pass, an unchanged
      plan returns "Nothing to update" and a changed one is posted, unless its tick
      and tick length cannot be compared; nothing else is ever posted. */
  lemma UpdateConsensusShape(node: Node, log: seq<Call>, a: ConsensusArgs, arg: Option<string>,
                             current: Option<string>)
    requires GroupIdOf(arg, current).Ok?
    ensures var g := GroupIdOf(arg, current).value;
      var p := ProofReq(node, log, g);
      var s := UpdateConsensusSpec(node, log, a, arg, current);
      && log + [Fetch(Endpoints.Consensus(g))] <= s.log
      && (p.result.Ok? && TickError(a).Some? ==> s == Sent(Err(ValueError(TickError(a).value)), p.log))
      && (p.result.Ok? && TickError(a).None? && Existing(p.result.value).Ok? ==>
            var e := Existing(p.result.value).value;
            var post := Call(Endpoints.UpdateConsensus, SettingsDict(g, Planned(a, e)));
            && (Planned(a, e) == e ==> s == Sent(Ok(Dict([("message", Str("Nothing to update"))])), p.log))
            && (Planned(a, e) != e && Orderable(Planned(a, e).tick, Planned(a, e).length) ==>
                  s == Sent(Ok(node(p.log, post)), p.log + [post]))
            && (Planned(a, e) != e && !Orderable(Planned(a, e).tick, Planned(a, e).length) ==>
                  s.result.Err? && s.log == p.log))
      && (s.log != p.log ==>
            && p.result.Ok? && TickError(a).None? && Existing(p.result.value).Ok?
            && Planned(a, Existing(p.result.value).value) != Existing(p.result.value).value
            && s.log == p.log + [Call(Endpoints.UpdateConsensus, SettingsDict(g, Planned(a, Existing(p.result.value).value)))])
  {
    var g := GroupIdOf(arg, current).value;
    var p := ProofReq(node, log, g);
    var s := UpdateConsensusSpec(node, log, a, arg, current);
    if p.result.Ok? && TickError(a).None? && Existing(p.result.value).Ok? {
      var e := Existing(p.result.value).value;
      SettingsDictInjective(g, Planned(a, e), e);
      if s.log != p.log {
        assert SettingsDict(g, Planned(a, e)) != SettingsDict(g, e);
      }
    }
  }

  /* ---------------------------------------------------------------- users */

  /** The status `add_user` accepts as already approved; anything that is not a dict
      fails to answer `.get` and counts as not approved. */
  predicate Approved(status: Value)
  {
    status.Dict? && GetOr(status.fields, "Result", Null) == Str("APPROVED")
  }

  /** `add_user` with its announcement probe resolving `probeArg`: an approval found
      by the probe is returned as it is; a probe that fails, or answers anything
      but an approval, goes on to `_approve_user(pubkey, "add", group_id)`. */
  function AddUserWith(node: Node, log: seq<Call>, pubkey: string, probeArg: Option<string>, arg: Option<string>,
                       current: Option<string>): Sent<Value>
  {
    var probe := WrapSpec(node, log, AnnouncedUser(pubkey), probeArg, current);
    if probe.result.Ok? && Approved(probe.result.value) then probe
    else ApproveUserSpec(node, probe.log, pubkey, "add", arg, current)
  }

  /** `add_user` as written: the announcement probe takes no group id, so it asks
      about the client's current group, whatever group the user is added to. */
  function AddUserAsWritten(node: Node, log: seq<Call>, pubkey: string, arg: Option<string>,
                            current: Option<string>): Sent<Value>
  {
    AddUserWith(node, log, pubkey, None, arg, current)
  }

  /** `add_user` with the probe asking about the group the user is added to. */
  function AddUserSpec(node: Node, log: seq<Call>, pubkey: string, arg: Option<string>,
                       current: Option<string>): Sent<Value>
  {
    AddUserWith(node, log, pubkey, arg, arg, current)
  }

  /** The probe, then the approval: without a group to probe nothing is sent before
      the approval; otherwise the probe of that group is the first request, an
      approval it answers is returned with nothing else sent, and any other answer
      leads to the approval after it. */
  lemma AddUserProbeThenApprove(node: Node, log: seq<Call>, pubkey: string, probeArg: Option<string>,
                                arg: Option<string>, current: Option<string>)
    ensures var s := AddUserWith(node, log, pubkey, probeArg, arg, current);
      && (GroupIdOf(probeArg, current).Err? ==> s == ApproveUserSpec(node, log, pubkey, "add", arg, current))
      && (GroupIdOf(probeArg, current).Ok? ==>
            var probe := Fetch(Endpoints.AnnouncedUser(GroupIdOf(probeArg, current).value, pubkey));
            && log + [probe] <= s.log
            && (Approved(node(log, probe)) ==> s == Sent(Ok(node(log, probe)), log + [probe]))
            && (!Approved(node(log, probe)) ==> s == ApproveUserSpec(node, log + [probe], pubkey, "add", arg, current)))
  {
    if GroupIdOf(probeArg, current).Ok? {
      var probe := Fetch(Endpoints.AnnouncedUser(GroupIdOf(probeArg, current).value, pubkey));
      assert WrapSpec(node, log, AnnouncedUser(pubkey), probeArg, current) == Sent(Ok(node(log, probe)), log + [probe]);
      if !Approved(node(log, probe)) {
        OwnerGuardPrefix(node, log + [probe], arg, current);
      }
    }
  }

  /** As written, `add_user` probes the current group: with none set it goes
      straight to the approval; otherwise an approval in the current group is
      returned, and anything else goes on to the approval in the target group. */
  lemma AddUserAsWrittenFallsThrough(node: Node, log: seq<Call>, pubkey: string, arg: Option<string>,
                                     current: Option<string>)
    ensures var s := AddUserAsWritten(node, log, pubkey, arg, current);
      && (!TruthyStr(current) ==> s == ApproveUserSpec(node, log, pubkey, "add", arg, current))
      && (TruthyStr(current) ==>
            var probe := Fetch(Endpoints.AnnouncedUser(current.value, pubkey));
            && (Approved(node(log, probe)) ==> s == Sent(Ok(node(log, probe)), log + [probe]))
            && (!Approved(node(log, probe)) ==> s == ApproveUserSpec(node, log + [probe], pubkey, "add", arg, current)))
  {
    AddUserProbeThenApprove(node, log, pubkey, None, arg, current);
  }

  /** The corrected `add_user` probes the target group: without a group id it goes
      on to the approval, which fails; otherwise its first request is the probe of
      the target group, an approval there is returned with nothing else sent, and
      any other answer goes on to the approval in that group. */
  lemma AddUserProbesTarget(node: Node, log: seq<Call>, pubkey: string, arg: Option<string>,
                            current: Option<string>)
    ensures var s := AddUserSpec(node, log, pubkey, arg, current);
      && (GroupIdOf(arg, current).Err? ==> s == ApproveUserSpec(node, log, pubkey, "add", arg, current))
      && (GroupIdOf(arg, current).Ok? ==>
            var probe := Fetch(Endpoints.AnnouncedUser(GroupIdOf(arg, current).value, pubkey));
            && log + [probe] <= s.log
            && (Approved(node(log, probe)) ==> s == Sent(Ok(node(log, probe)), log + [probe]))
            && (!Approved(node(log, probe)) ==> s == ApproveUserSpec(node, log + [probe], pubkey, "add", arg, current)))
  {
    AddUserProbeThenApprove(node, log, pubkey, arg, arg, current);
  }

  /** Whatever the owner guard does, it keeps the requests before it. */
  lemma OwnerGuardPrefix(node: Node, log: seq<Call>, arg: Option<string>, current: Option<string>)
    ensures log <= OwnerSpec(node, log, arg, current).log
  {
  }

  /** A node that reports `pubkey` approved in group `g` only, and answers
      everything else with null (no groups, no data). */
  function ApprovedOnlyIn(g: string, pubkey: string): Node
  {
    (l: seq<Call>, c: Call) =>
      if c == Fetch(Endpoints.AnnouncedUser(g, pubkey)) then Dict([("Result", Str("APPROVED"))]) else Null
  }

  /** A client on group A adding a user approved in A only to group B: as written the
      call returns A's approval after one request and never reaches B. */
  lemma AddUserAsWrittenProbesCurrent(pubkey: string)
    ensures AddUserAsWritten(ApprovedOnlyIn("A", pubkey), [], pubkey, Some("B"), Some("A"))
         == Sent(Ok(Dict([("Result", Str("APPROVED"))])), [Fetch(Endpoints.AnnouncedUser("A", pubkey))])
  {
    var node := ApprovedOnlyIn("A", pubkey);
    var probe := Fetch(Endpoints.AnnouncedUser("A", pubkey));
    var approved := Dict([("Result", Str("APPROVED"))]);
    FindEntry([("Result", Str("APPROVED"))], 0);
    assert Approved(approved);
    assert WrapperCall(AnnouncedUser(pubkey), "A") == probe;
    assert node([], probe) == approved;
    assert WrapSpec(node, [], AnnouncedUser(pubkey), None, Some("A")) == Sent(Ok(approved), [probe]);
  }

  /** The same call corrected asks about B, finds the user not approved there and
      goes on to approve them in B, where this node's client is not a member. */
  lemma AddUserProbesRequestedGroup(pubkey: string)
    ensures var s := AddUserSpec(ApprovedOnlyIn("A", pubkey), [], pubkey, Some("B"), Some("A"));
      && s.log == [Fetch(Endpoints.AnnouncedUser("B", pubkey)), Fetch(Endpoints.Groups)]
      && s.result == Err(ChainError("You are not in this group: <B>."))
  {
    var node := ApprovedOnlyIn("A", pubkey);
    var probe := Fetch(Endpoints.AnnouncedUser("B", pubkey));
    assert probe != Fetch(Endpoints.AnnouncedUser("A", pubkey)) by {
      assert "B"[0] != "A"[0];
    }
    assert WrapSpec(node, [], AnnouncedUser(pubkey), Some("B"), Some("A")) == Sent(Ok(Null), [probe]);
    assert node([probe], Fetch(Endpoints.Groups)) == Null;
    assert GroupIdsOf(Null) == Ok([]);
    assert JoinedIn(Null, "B") == Err(ChainError("You are not in this group: <B>.")) by {
      assert "You are not in this group: <" + "B" + ">." == "You are not in this group: <B>.";
    }
    assert JoinedSpec(node, [probe], Some("B"), Some("A")) ==
      Sent(Err(ChainError("You are not in this group: <B>.")), [probe, Fetch(Endpoints.Groups)]);
  }
}
