/** The node's REST surface as the pass-through layer `BaseAPI` reaches it
    (quorum_fullnode_py/api/base.py): which HTTP method and which path each endpoint
    helper requests, and how the content listing turns its parameters into a query
    string. */
module Endpoints {
  import opened Optional
  import opened Text
  import opened Values

  datatype HttpMethod = GET | POST

  /** One value of the content listing's query parameters. */
  datatype QueryValue = QInt(i: int) | QBool(b: bool) | QStr(s: string) | QList(items: seq<string>)

  /** The parameter dict, in insertion order. */
  type Query = seq<(string, QueryValue)>

  /** Every endpoint the façade calls. Those after `Producer` are called by the façade
      but have no helper in base.py, so they have no route here. */
  datatype Endpoint =
    | NodeInfo
    | Groups
    | Group(groupId: string)
    | Seed(groupId: string)
    | Block(groupId: string, blockId: string)
    | Network
    | Peers
    | CreateGroup
    | JoinGroup
    | LeaveGroup
    | ClearGroup
    | CreateToken
    | RefreshToken
    | PubkeyToAddr
    | Relay
    | StartSync(groupId: string)
    | Pubqueue(groupId: string)
    | PubqueueAck
    | Trx(groupId: string, trxId: string)
    | Profile
    | PostContent(groupId: string)
    | Content(groupId: string, query: Query)
    | AppconfigKeylist(groupId: string)
    | AppconfigKey(groupId: string, key: string)
    | Appconfig
    | TrxAuth(groupId: string, trxType: string)
    | Chainconfig
    | AllowList(groupId: string)
    | DenyList(groupId: string)
    | Announce
    | AnnouncedUsers(groupId: string)
    | AnnouncedUser(groupId: string, pubkey: string)
    | Producers(groupId: string)
    | AnnouncedProducers(groupId: string)
    | User
    | Producer
    | TokenList
    | RevokeToken
    | RemoveToken
    | Consensus(groupId: string)
    | ConsensusReq(groupId: string, reqId: Value)
    | ConsensusLast(groupId: string)
    | ConsensusHistory(groupId: string)
    | ConsensusCurrent(groupId: string)
    | UpdateConsensus
    | UpdateUser

  datatype Route = Route(verb: HttpMethod, path: string)

  /** The path whose '/'-separated segments are `segments`; each id is put in
      verbatim, as the f-string templates do. */
  function PathOf(segments: seq<string>): string
  {
    "/" + Join(segments, '/')
  }

  /** The one helper, `_get` or `_post`, and the one path each endpoint requests;
      None for the endpoints base.py does not define. */
  function RouteOf(e: Endpoint): (r: Option<Route>)
    ensures r.None? <==>
      e.TokenList? || e.RevokeToken? || e.RemoveToken? || e.Consensus? || e.ConsensusReq?
      || e.ConsensusLast? || e.ConsensusHistory? || e.ConsensusCurrent? || e.UpdateConsensus? || e.UpdateUser?
    ensures r.Some? ==> |r.value.path| > 0 && r.value.path[0] == '/'
  {
    match e
    case NodeInfo => Some(Route(GET, PathOf(["api", "v1", "node"])))
    case Groups => Some(Route(GET, PathOf(["api", "v1", "groups"])))
    case Group(g) => Some(Route(GET, PathOf(["api", "v1", "group", g])))
    case Seed(g) => Some(Route(GET, PathOf(["api", "v1", "group", g, "seed"])))
    case Block(g, b) => Some(Route(GET, PathOf(["api", "v1", "block", g, b])))
    case Network => Some(Route(GET, PathOf(["api", "v1", "network"])))
    case Peers => Some(Route(POST, PathOf(["api", "v1", "network", "peers"])))
    case CreateGroup => Some(Route(POST, PathOf(["api", "v1", "group"])))
    case JoinGroup => Some(Route(POST, PathOf(["api", "v2", "group", "join"])))
    case LeaveGroup => Some(Route(POST, PathOf(["api", "v1", "group", "leave"])))
    case ClearGroup => Some(Route(POST, PathOf(["api", "v1", "group", "clear"])))
    case CreateToken => Some(Route(POST, PathOf(["app", "api", "v1", "token", "create"])))
    case RefreshToken => Some(Route(POST, PathOf(["app", "api", "v1", "token", "refresh"])))
    case PubkeyToAddr => Some(Route(POST, PathOf(["api", "v1", "tools", "pubkeytoaddr"])))
    case Relay => Some(Route(POST, PathOf(["api", "v1", "network", "relay"])))
    case StartSync(g) => Some(Route(POST, PathOf(["api", "v1", "group", g, "startsync"])))
    case Pubqueue(g) => Some(Route(GET, PathOf(["api", "v1", "group", g, "pubqueue"])))
    case PubqueueAck => Some(Route(POST, PathOf(["api", "v1", "trx", "ack"])))
    case Trx(g, t) => Some(Route(GET, PathOf(["api", "v1", "trx", g, t])))
    case Profile => Some(Route(POST, PathOf(["api", "v1", "group", "profile"])))
    case PostContent(g) => Some(Route(POST, PathOf(["api", "v1", "group", g, "content"])))
    case Content(g, q) => Some(Route(GET, ContentPath(g, q)))
    case AppconfigKeylist(g) => Some(Route(GET, PathOf(["api", "v1", "group", g, "appconfig", "keylist"])))
    case AppconfigKey(g, k) => Some(Route(GET, PathOf(["api", "v1", "group", g, "appconfig", k])))
    case Appconfig => Some(Route(POST, PathOf(["api", "v1", "group", "appconfig"])))
    case TrxAuth(g, t) => Some(Route(GET, PathOf(["api", "v1", "group", g, "trx", "auth", t])))
    case Chainconfig => Some(Route(POST, PathOf(["api", "v1", "group", "chainconfig"])))
    case AllowList(g) => Some(Route(GET, PathOf(["api", "v1", "group", g, "trx", "allowlist"])))
    case DenyList(g) => Some(Route(GET, PathOf(["api", "v1", "group", g, "trx", "denylist"])))
    case Announce => Some(Route(POST, PathOf(["api", "v1", "group", "announce"])))
    case AnnouncedUsers(g) => Some(Route(GET, PathOf(["api", "v1", "group", g, "announced", "users"])))
    case AnnouncedUser(g, p) => Some(Route(GET, PathOf(["api", "v1", "group", g, "announced", "user", p])))
    case Producers(g) => Some(Route(GET, PathOf(["api", "v1", "group", g, "producers"])))
    case AnnouncedProducers(g) => Some(Route(GET, PathOf(["api", "v1", "group", g, "announced", "producers"])))
    case User => Some(Route(POST, PathOf(["api", "v1", "group", "user"])))
    case Producer => Some(Route(POST, PathOf(["api", "v1", "group", "producer"])))
    case _ => None
  }

  /** The group an endpoint is about, when it is scoped to one. */
  function ScopeOf(e: Endpoint): Option<string>
  {
    match e
    case Group(g) => Some(g)
    case Seed(g) => Some(g)
    case Block(g, _) => Some(g)
    case StartSync(g) => Some(g)
    case Pubqueue(g) => Some(g)
    case Trx(g, _) => Some(g)
    case PostContent(g) => Some(g)
    case Content(g, _) => Some(g)
    case AppconfigKeylist(g) => Some(g)
    case AppconfigKey(g, _) => Some(g)
    case TrxAuth(g, _) => Some(g)
    case AllowList(g) => Some(g)
    case DenyList(g) => Some(g)
    case AnnouncedUsers(g) => Some(g)
    case AnnouncedUser(g, _) => Some(g)
    case Producers(g) => Some(g)
    case AnnouncedProducers(g) => Some(g)
    case Consensus(g) => Some(g)
    case ConsensusReq(g, _) => Some(g)
    case ConsensusLast(g) => Some(g)
    case ConsensusHistory(g) => Some(g)
    case ConsensusCurrent(g) => Some(g)
    case _ => None
  }

  /** No id that goes into the endpoint's path holds a '/'. */
  predicate SlashFreeIds(e: Endpoint)
  {
    match e
    case Group(g) => '/' !in g
    case Seed(g) => '/' !in g
    case Block(g, b) => '/' !in g && '/' !in b
    case StartSync(g) => '/' !in g
    case Pubqueue(g) => '/' !in g
    case Trx(g, t) => '/' !in g && '/' !in t
    case PostContent(g) => '/' !in g
    case Content(g, _) => '/' !in g
    case AppconfigKeylist(g) => '/' !in g
    case AppconfigKey(g, k) => '/' !in g && '/' !in k
    case TrxAuth(g, t) => '/' !in g && '/' !in t
    case AllowList(g) => '/' !in g
    case DenyList(g) => '/' !in g
    case AnnouncedUsers(g) => '/' !in g
    case AnnouncedUser(g, p) => '/' !in g && '/' !in p
    case Producers(g) => '/' !in g
    case AnnouncedProducers(g) => '/' !in g
    case _ => true
  }

  /** Reads the group id back out of a group-scoped path: the segment after
      `/api/v1/group/`, `/api/v1/block/`, `/api/v1/trx/` or `/app/api/v1/group/`. */
  function GroupOfPath(path: string): Option<string>
  {
    var segs := Split(path, '/');
    if |segs| >= 5 && segs[0] == "" && segs[1] == "api" && segs[2] == "v1"
       && (segs[3] == "group" || segs[3] == "block" || segs[3] == "trx")
    then Some(segs[4])
    else if |segs| >= 6 && segs[0] == "" && segs[1] == "app" && segs[2] == "api" && segs[3] == "v1"
       && segs[4] == "group"
    then Some(segs[5])
    else None
  }

  lemma SplitPath(segments: seq<string>)
    requires |segments| >= 1
    requires forall k :: 0 <= k < |segments| ==> '/' !in segments[k]
    ensures Split(PathOf(segments), '/') == [""] + segments
  {
    var pieces := [""] + segments;
    assert pieces[1..] == segments;
    assert Join(pieces, '/') == PathOf(segments);
    SplitJoin(pieces, '/');
  }

  /** A path `/api/v1/{group|block|trx}/{g}/...` names the group `g`. */
  lemma ApiPathGroup(segs: seq<string>)
    requires |segs| >= 4 && segs[0] == "api" && segs[1] == "v1"
    requires segs[2] == "group" || segs[2] == "block" || segs[2] == "trx"
    requires forall k :: 0 <= k < |segs| ==> '/' !in segs[k]
    ensures GroupOfPath(PathOf(segs)) == Some(segs[3])
  {
    SplitPath(segs);
  }

  /** A path `/app/api/v1/group/{g}/...` names the group `g`. */
  lemma AppPathGroup(segs: seq<string>)
    requires |segs| >= 5 && segs[0] == "app" && segs[1] == "api" && segs[2] == "v1" && segs[3] == "group"
    requires forall k :: 0 <= k < |segs| ==> '/' !in segs[k]
    ensures GroupOfPath(PathOf(segs)) == Some(segs[4])
  {
    SplitPath(segs);
  }

  /** A group-scoped endpoint's path names its group in the group position, so the
      request reaches that group, as long as the ids in the path hold no '/'. */
  lemma RouteNamesGroup(e: Endpoint)
    requires ScopeOf(e).Some? && RouteOf(e).Some? && SlashFreeIds(e)
    ensures GroupOfPath(RouteOf(e).value.path) == ScopeOf(e)
  {
    if e.Group? || e.Seed? || e.Block? || e.StartSync? || e.Pubqueue? || e.Trx? || e.PostContent? || e.Content? {
      GroupPathsNameGroup(e);
    } else {
      SettingPathsNameGroup(e);
    }
  }

  lemma GroupPathsNameGroup(e: Endpoint)
    requires e.Group? || e.Seed? || e.Block? || e.StartSync? || e.Pubqueue? || e.Trx? || e.PostContent? || e.Content?
    requires SlashFreeIds(e)
    ensures RouteOf(e).Some? && GroupOfPath(RouteOf(e).value.path) == ScopeOf(e)
  {
    if e.Group? {
      ApiPathGroup(["api", "v1", "group", e.groupId]);
    } else if e.Seed? {
      ApiPathGroup(["api", "v1", "group", e.groupId, "seed"]);
    } else if e.Block? {
      ApiPathGroup(["api", "v1", "block", e.groupId, e.blockId]);
    } else if e.StartSync? {
      ApiPathGroup(["api", "v1", "group", e.groupId, "startsync"]);
    } else if e.Pubqueue? {
      ApiPathGroup(["api", "v1", "group", e.groupId, "pubqueue"]);
    } else if e.Trx? {
      ApiPathGroup(["api", "v1", "trx", e.groupId, e.trxId]);
    } else if e.PostContent? {
      ApiPathGroup(["api", "v1", "group", e.groupId, "content"]);
    } else {
      ContentPathSegments(e.groupId, e.query);
    }
  }

  lemma SettingPathsNameGroup(e: Endpoint)
    requires ScopeOf(e).Some? && RouteOf(e).Some? && SlashFreeIds(e)
    requires !(e.Group? || e.Seed? || e.Block? || e.StartSync? || e.Pubqueue? || e.Trx? || e.PostContent? || e.Content?)
    ensures GroupOfPath(RouteOf(e).value.path) == ScopeOf(e)
  {
    if e.AppconfigKeylist? || e.AppconfigKey? || e.TrxAuth? || e.AllowList? || e.DenyList? {
      ConfigPathsNameGroup(e);
    } else {
      MemberPathsNameGroup(e);
    }
  }

  lemma ConfigPathsNameGroup(e: Endpoint)
    requires e.AppconfigKeylist? || e.AppconfigKey? || e.TrxAuth? || e.AllowList? || e.DenyList?
    requires SlashFreeIds(e)
    ensures RouteOf(e).Some? && GroupOfPath(RouteOf(e).value.path) == ScopeOf(e)
  {
    if e.AppconfigKeylist? {
      ApiPathGroup(["api", "v1", "group", e.groupId, "appconfig", "keylist"]);
    } else if e.AppconfigKey? {
      ApiPathGroup(["api", "v1", "group", e.groupId, "appconfig", e.key]);
    } else if e.TrxAuth? {
      ApiPathGroup(["api", "v1", "group", e.groupId, "trx", "auth", e.trxType]);
    } else if e.AllowList? {
      ApiPathGroup(["api", "v1", "group", e.groupId, "trx", "allowlist"]);
    } else {
      ApiPathGroup(["api", "v1", "group", e.groupId, "trx", "denylist"]);
    }
  }

  lemma MemberPathsNameGroup(e: Endpoint)
    requires ScopeOf(e).Some? && RouteOf(e).Some? && SlashFreeIds(e)
    requires !(e.Group? || e.Seed? || e.Block? || e.StartSync? || e.Pubqueue? || e.Trx? || e.PostContent? || e.Content?)
    requires !(e.AppconfigKeylist? || e.AppconfigKey? || e.TrxAuth? || e.AllowList? || e.DenyList?)
    ensures GroupOfPath(RouteOf(e).value.path) == ScopeOf(e)
  {
    if e.AnnouncedUsers? {
      ApiPathGroup(["api", "v1", "group", e.groupId, "announced", "users"]);
    } else if e.AnnouncedUser? {
      ApiPathGroup(["api", "v1", "group", e.groupId, "announced", "user", e.pubkey]);
    } else if e.Producers? {
      ApiPathGroup(["api", "v1", "group", e.groupId, "producers"]);
    } else if e.AnnouncedProducers? {
      ApiPathGroup(["api", "v1", "group", e.groupId, "announced", "producers"]);
    } else {
      assert false;
    }
  }

  /** Ids are not escaped: a group id holding "/seed" asks for another group's seed
      under the plain group-info path. */
  lemma VerbatimIdsCollide()
    ensures RouteOf(Group("g/seed")) == RouteOf(Seed("g"))
  {
    var head := ["api", "v1", "group"];
    assert ["api", "v1", "group", "g/seed"] == head + ["g/seed"];
    assert ["api", "v1", "group", "g", "seed"] == head + ["g", "seed"];
    JoinUnder(head, ["g/seed"], '/');
    JoinUnder(head, ["g", "seed"], '/');
    assert Join(["g", "seed"], '/') == "g/seed";
  }

  /* -------------------------------------------------------------- listing */

  /** The loop of `_get_content` that swaps each bool for its `json.dumps` text. */
  function DumpBools(q: Query): (r: Query)
    ensures |r| == |q|
    ensures forall i :: 0 <= i < |q| ==> r[i] == DumpBool(q[i])
  {
    if q == [] then [] else [DumpBool(q[0])] + DumpBools(q[1..])
  }

  function DumpBool(kv: (string, QueryValue)): (string, QueryValue)
  {
    if kv.1.QBool? then (kv.0, QStr(if kv.1.b then "true" else "false")) else kv
  }

  /** After the swap no bool is left, keys and order are kept, every other value is
      untouched and a bool becomes the JSON literal of its value. */
  lemma DumpBoolsMeaning(q: Query, i: nat)
    requires i < |q|
    ensures |DumpBools(q)| == |q| && DumpBools(q)[i].0 == q[i].0
    ensures !DumpBools(q)[i].1.QBool?
    ensures q[i].1.QBool? ==> DumpBools(q)[i].1 == QStr(if q[i].1.b then "true" else "false")
    ensures !q[i].1.QBool? ==> DumpBools(q)[i].1 == q[i].1
    ensures DumpBools(DumpBools(q)) == DumpBools(q)
  {
  }

  /** `_get_content` rewrites the caller's parameter dict in place. */
  method DumpBoolsInPlace(a: array<(string, QueryValue)>)
    modifies a
    ensures a[..] == DumpBools(old(a[..]))
  {
    var i := 0;
    while i < a.Length
      invariant 0 <= i <= a.Length
      invariant forall k :: 0 <= k < i ==> a[k] == DumpBool(old(a[k]))
      invariant forall k :: i <= k < a.Length ==> a[k] == old(a[k])
    {
      if a[i].1.QBool? {
        a[i] := (a[i].0, QStr(if a[i].1.b then "true" else "false"));
      }
      i := i + 1;
    }
  }

  /** The listing's path: the bare `/app/api/v1/group/{id}/content` when there are
      no parameters, else that path, a '?' and the encoded parameters. */
  function ContentPath(g: string, q: Query): (r: string)
    ensures PathOf(["app", "api", "v1", "group", g, "content"]) <= r
  {
    var bare := PathOf(["app", "api", "v1", "group", g, "content"]);
    if q == [] then bare else bare + "?" + UrlEncode(DumpBools(q))
  }

  /** A query string appended to the bare listing path rides on its last segment. */
  lemma QueryOnLastSegment(g: string, enc: string)
    ensures PathOf(["app", "api", "v1", "group", g, "content"]) + "?" + enc
      == PathOf(["app", "api", "v1", "group", g, "content?" + enc])
  {
    var prefix := ["app", "api", "v1", "group", g];
    var head := "/" + Join(prefix, '/') + "/";
    JoinSnoc(prefix, "content", '/');
    JoinSnoc(prefix, "content?" + enc, '/');
    assert prefix + ["content"] == ["app", "api", "v1", "group", g, "content"];
    assert prefix + ["content?" + enc] == ["app", "api", "v1", "group", g, "content?" + enc];
    assert (head + "content") + "?" + enc == head + ("content?" + enc);
  }

  /** The listing's path names its group, with or without parameters. */
  lemma ContentPathSegments(g: string, q: Query)
    requires '/' !in g
    ensures GroupOfPath(ContentPath(g, q)) == Some(g)
  {
    if q == [] {
      AppPathGroup(["app", "api", "v1", "group", g, "content"]);
    } else {
      var enc := UrlEncode(DumpBools(q));
      UrlEncodeAlphabet(DumpBools(q));
      assert '/' !in enc;
      QueryPathGroup(g, enc);
    }
  }

  /** A query without slashes leaves the group segment of the listing path alone. */
  lemma QueryPathGroup(g: string, enc: string)
    requires '/' !in g && '/' !in enc
    ensures GroupOfPath(PathOf(["app", "api", "v1", "group", g, "content"]) + "?" + enc) == Some(g)
  {
    var last := "content?" + enc;
    assert '/' !in last by {
      forall k | 0 <= k < |last| ensures last[k] != '/' {
        if k >= 8 { assert last[k] == enc[k - 8]; }
      }
    }
    QueryOnLastSegment(g, enc);
    AppPathGroup(["app", "api", "v1", "group", g, last]);
  }

  /** A '?' appears in the listing's path exactly when there are parameters, and the
      part before it is always the bare listing path. */
  lemma ContentQueryMarker(g: string, q: Query)
    requires '?' !in g
    ensures var bare := PathOf(["app", "api", "v1", "group", g, "content"]);
      && TakeUntil(ContentPath(g, q), '?') == bare
      && ('?' in ContentPath(g, q) <==> q != [])
  {
    var bare := PathOf(["app", "api", "v1", "group", g, "content"]);
    BareListingUnmarked(g);
    if q != [] {
      var enc := UrlEncode(DumpBools(q));
      assert ContentPath(g, q) == bare + "?" + enc;
      QueryAfterMark(bare, enc);
    } else {
      assert ContentPath(g, q) == bare;
      TakeUntilAbsent(bare, '?');
    }
  }

  /** The listing is a GET under the `/app` prefix and posting a POST under `/api`,
      so the two never share a path, whatever the parameters. */
  lemma ListingAndPostingPaths(g: string, q: Query)
    ensures RouteOf(Content(g, q)) == Some(Route(GET, ContentPath(g, q)))
    ensures RouteOf(PostContent(g)) == Some(Route(POST, PathOf(["api", "v1", "group", g, "content"])))
    ensures var list := ContentPath(g, q);
      var post := PathOf(["api", "v1", "group", g, "content"]);
      && |list| >= 4 && list[..4] == "/app"
      && |post| >= 4 && post[..4] == "/api"
      && list != post
  {
    PrefixesDiffer(g, q);
  }

  lemma PrefixesDiffer(g: string, q: Query)
    ensures var list := ContentPath(g, q);
      var post := PathOf(["api", "v1", "group", g, "content"]);
      && |list| >= 4 && list[..4] == "/app"
      && |post| >= 4 && post[..4] == "/api"
      && list != post
  {
    var rest := ["api", "v1", "group", g, "content"];
    var bare := PathOf(["app", "api", "v1", "group", g, "content"]);
    assert bare == "/" + ("app" + ['/'] + Join(rest, '/'));
    var list := ContentPath(g, q);
    assert list == bare || list == bare + ("?" + UrlEncode(DumpBools(q)));
    assert list[..4] == "/app";
    var post := PathOf(rest);
    assert post == "/" + ("api" + ['/'] + Join(rest[1..], '/'));
    assert post[..4] == "/api";
    assert list[3] != post[3];
  }

  /** A query appended after a path without '?' is found after the first '?'. */
  lemma QueryAfterMark(path: string, enc: string)
    requires '?' !in path
    ensures TakeUntil(path + "?" + enc, '?') == path && '?' in path + "?" + enc
  {
    assert path + "?" + enc == path + ("?" + enc);
    TakeUntilConcat(path, "?" + enc, '?');
    assert (path + "?" + enc)[|path|] == '?';
  }

  /** The bare listing path has no '?' of its own. */
  lemma BareListingUnmarked(g: string)
    requires '?' !in g
    ensures '?' !in PathOf(["app", "api", "v1", "group", g, "content"])
  {
    JoinAvoids(["app", "api", "v1", "group", g, "content"], '/', '?');
  }

  /* ------------------------------------------------------------ urlencode */

  predicate AlwaysSafe(c: char)
  {
    'a' <= c <= 'z' || 'A' <= c <= 'Z' || '0' <= c <= '9' || c == '_' || c == '.' || c == '-' || c == '~'
  }

  /** The characters `quote_plus` can produce. */
  predicate Encoded(c: char)
  {
    AlwaysSafe(c) || c == '+' || c == '%'
  }

  /** The UTF-8 bytes of one character. */
  function Utf8(c: char): (r: seq<byte>)
    ensures 1 <= |r| <= 4
  {
    var n := c as int;
    if n < 0x80 then [n as byte]
    else if n < 0x800 then [(0xc0 + n / 0x40) as byte, (0x80 + n % 0x40) as byte]
    else if n < 0x1_0000 then
      [(0xe0 + n / 0x1000) as byte, (0x80 + n / 0x40 % 0x40) as byte, (0x80 + n % 0x40) as byte]
    else
      [(0xf0 + n / 0x4_0000 % 8) as byte, (0x80 + n / 0x1000 % 0x40) as byte,
       (0x80 + n / 0x40 % 0x40) as byte, (0x80 + n % 0x40) as byte]
  }

  function UpperHex(d: nat): (c: char)
    requires d < 16
    ensures AlwaysSafe(c)
  {
    if d < 10 then ('0' as int + d) as char else ('A' as int + d - 10) as char
  }

  function PercentBytes(bs: seq<byte>): (r: string)
    ensures forall k :: 0 <= k < |r| ==> Encoded(r[k])
  {
    if bs == [] then ""
    else ['%', UpperHex(bs[0] as int / 16), UpperHex(bs[0] as int % 16)] + PercentBytes(bs[1..])
  }

  /** `quote_plus(s, safe='')`: unreserved characters stay, a space becomes '+',
      everything else becomes the %XX escapes of its UTF-8 bytes. */
  function QuotePlus(s: string): (r: string)
    ensures forall k :: 0 <= k < |r| ==> Encoded(r[k])
  {
    if s == [] then ""
    else
      (if AlwaysSafe(s[0]) then [s[0]] else if s[0] == ' ' then "+" else PercentBytes(Utf8(s[0])))
      + QuotePlus(s[1..])
  }

  /** `repr(s)` of a string: single quotes unless only the double quote avoids an
      escape; backslash, the chosen quote and control characters are escaped. */
  function ReprString(s: string): (r: string)
    ensures |r| >= |s| + 2
    ensures r[0] == r[|r| - 1] && (r[0] == '\'' || r[0] == '"')
    ensures r[0] == '"' <==> '\'' in s && '"' !in s
  {
    var quote := if '\'' in s && '"' !in s then '"' else '\'';
    [quote] + ReprChars(s, quote) + [quote]
  }

  function ReprChars(s: string, quote: char): (r: string)
    ensures |r| >= |s|
  {
    if s == [] then ""
    else
      var c := s[0];
      (if c == '\\' then "\\\\"
       else if c == quote then ['\\', c]
       else if c == '\t' then "\\t"
       else if c == '\n' then "\\n"
       else if c == '\r' then "\\r"
       else if (c as int) < 0x20 || c as int == 0x7f then "\\x" + [HexDigit(c as int / 16), HexDigit(c as int % 16)]
       else [c])
      + ReprChars(s[1..], quote)
  }

  /** `str(v)` for a parameter value. */
  function StrOf(v: QueryValue): (r: string)
    ensures v.QStr? ==> r == v.s
    ensures v.QList? ==> |r| >= 2 && r[0] == '[' && r[|r| - 1] == ']'
    ensures v.QBool? ==> (r == "True" <==> v.b)
  {
    match v
    case QInt(i) => IntToString(i)
    case QBool(b) => if b then "True" else "False"
    case QStr(s) => s
    case QList(items) => "[" + JoinWith(seq(|items|, k requires 0 <= k < |items| => ReprString(items[k])), ", ") + "]"
  }

  function EncodePair(kv: (string, QueryValue)): string
  {
    QuotePlus(kv.0) + "=" + QuotePlus(StrOf(kv.1))
  }

  /** `urlencode(q)` without `doseq`: one `key=value` field per parameter, joined by '&'. */
  function UrlEncode(q: Query): string
  {
    Join(seq(|q|, i requires 0 <= i < |q| => EncodePair(q[i])), '&')
  }

  /** A character of an encoded `key=value` field. */
  predicate FieldChar(c: char)
  {
    Encoded(c) || c == '='
  }

  lemma EncodePairAlphabet(kv: (string, QueryValue))
    ensures forall k :: 0 <= k < |EncodePair(kv)| ==> FieldChar(EncodePair(kv)[k])
  {
    var a, b := QuotePlus(kv.0), QuotePlus(StrOf(kv.1));
    assert EncodePair(kv) == a + "=" + b;
    forall k | 0 <= k < |EncodePair(kv)| ensures FieldChar(EncodePair(kv)[k]) {
      if k < |a| { assert EncodePair(kv)[k] == a[k]; }
      else if k > |a| { assert EncodePair(kv)[k] == b[k - |a| - 1]; }
    }
  }

  lemma {:induction false} JoinAlphabet(pieces: seq<string>)
    requires forall i, k :: 0 <= i < |pieces| && 0 <= k < |pieces[i]| ==> FieldChar(pieces[i][k])
    ensures forall k :: 0 <= k < |Join(pieces, '&')| ==> FieldChar(Join(pieces, '&')[k]) || Join(pieces, '&')[k] == '&'
  {
    if |pieces| > 1 {
      JoinAlphabet(pieces[1..]);
      var rest := Join(pieces[1..], '&');
      var all := Join(pieces, '&');
      assert all == pieces[0] + "&" + rest;
      forall k | 0 <= k < |all| ensures FieldChar(all[k]) || all[k] == '&' {
        if k < |pieces[0]| { assert all[k] == pieces[0][k]; }
        else if k > |pieces[0]| { assert all[k] == rest[k - |pieces[0]| - 1]; }
      }
    }
  }

  /** The encoded query holds only unreserved characters, escapes, '=' and '&';
      in particular no '/', '?' or '#'. */
  lemma UrlEncodeAlphabet(q: Query)
    ensures forall k :: 0 <= k < |UrlEncode(q)| ==> FieldChar(UrlEncode(q)[k]) || UrlEncode(q)[k] == '&'
  {
    var pieces := seq(|q|, i requires 0 <= i < |q| => EncodePair(q[i]));
    forall i | 0 <= i < |pieces| ensures forall k :: 0 <= k < |pieces[i]| ==> FieldChar(pieces[i][k]) {
      EncodePairAlphabet(q[i]);
    }
    JoinAlphabet(pieces);
  }

  /** Splitting the query string at '&' gives back exactly one `key=value` field per
      parameter, in order: a list value such as `senders` stays one field and is not
      spread over repeated keys. */
  lemma UrlEncodeFields(q: Query)
    requires q != []
    ensures |Split(UrlEncode(q), '&')| == |q|
    ensures forall i :: 0 <= i < |q| ==> Split(UrlEncode(q), '&')[i] == EncodePair(q[i])
  {
    var pieces := seq(|q|, i requires 0 <= i < |q| => EncodePair(q[i]));
    forall i | 0 <= i < |pieces| ensures '&' !in pieces[i] {
      EncodePairAlphabet(q[i]);
      assert forall k :: 0 <= k < |pieces[i]| ==> pieces[i][k] != '&';
    }
    SplitJoin(pieces, '&');
  }
}
