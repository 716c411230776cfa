# quorum-fullnode-py, modelled in Dafny

quorum-fullnode-py is a Python client for the REST API of a QuoRum full node. This
project models the client's own logic, which sits between a caller and the node:

- **The façade `FullNodeAPI`.** It runs a three-level guard chain: a group id is
  present (the explicit argument, else the current `group_id`), the group is joined,
  and the node's user owns it. It normalises trx types and modes, applies the token
  role rules, builds every request body, and runs the few small algorithms of the
  façade: the paged, decode-tolerant `get_content`, the two-step `trx` lookup,
  `ack`/`autoack`, the auth table of `get_auth`, the peer scan of `group_network`,
  the read-then-write `update_consensus`, and the `add_user` probe.
- **The endpoint map `BaseAPI`.** It maps each helper to its HTTP method and path,
  and builds the content listing's query string (bools turned into JSON text, then
  `urlencode`).
- **The content packer `FeedData`.** It builds the Activity Streams payloads
  (Create, Update, Delete, Like, Dislike, Undo, Follow and Block of a Note, a
  Profile or a Person) and packs images within the trx budget.
- **The client `FullNode`.** It resolves where the node is and mirrors its current
  group into the façade.
- **The exception taxonomy.** It covers the class hierarchy, the default error codes
  and the `str`/`repr` formats.

The node is a parameter: a function from the requests already sent and the new
request to the node's JSON answer. The façade is a class holding that node, the
current group and a log of every request sent. Each façade method is proved equal to
a specification function that returns the result and the new log. The lemmas about
those functions state what is sent, in what order, and when nothing is sent.

Modules, one per file:

- `Optional` (`optional.dfy`): Python's None-or-value.
- `Text` (`text.dfy`): ASCII `upper`/`lower`, decimal integers, split and join.
- `Exceptions` (`exceptions.dfy`): the exception classes and the `Result` type.
- `Values` (`values.dfy`): Python and JSON values, with insertion-ordered dicts, and
  `json.dumps`.
- `Endpoints` (`endpoints.dfy`): the routes and the query string.
- `Packer` (`packer.dfy`): the packer.
- `FullNodeApi` (`fullnode_api.dfy`): the pure specifications of the façade.
- `FullNodeApiObject` (`fullnode_api_object.dfy`): the façade class `Api`.
- `Client` (`client.dfy`): the client class `FullNode`.

Where the library's documentation and its code disagree, the model follows the code:

- Ids are put into paths verbatim, not escaped. `VerbatimIdsCollide` shows a group
  id that asks for another group's seed.
- List parameters such as `senders` go through `urlencode` without `doseq`, so they
  are sent as the text of the Python list, not as repeated keys.
- `_pack_content` refuses an empty text even when images are given. Its second
  check (`types/data.py:204-205`) can never fire.

## Model

| member | source | states |
|---|---|---|
| Text.Upper | quorum_fullnode_py/api/fullnode.py:31 | `str.upper()` keeps the length and maps each character on its own: an ASCII lower-case letter becomes its capital, 32 code points lower, and every other character is kept |
| Text.Lower | quorum_fullnode_py/api/fullnode.py:38 | `str.lower()` keeps the length and maps each character on its own: an ASCII capital becomes its lower-case letter, 32 code points higher, and every other character is kept |
| Text.UpperIdempotent | quorum_fullnode_py/api/fullnode.py:31 | upper-casing an already upper-cased text changes nothing |
| Text.UpperOfLower | quorum_fullnode_py/api/fullnode.py:30-34 | lower-casing before upper-casing makes no difference to the upper-cased result |
| Text.LowerOfUpper | quorum_fullnode_py/api/fullnode.py:37-42 | upper-casing before lower-casing makes no difference to the lower-cased result |
| Text.SameUpToCase | quorum_fullnode_py/api/fullnode.py:37-42 | two texts have the same upper case exactly when they have the same lower case |
| Text.IntToString | quorum_fullnode_py/client/fullnode.py:20 | `str(n)` is a non-empty run of digits and minus signs |
| Text.IntToStringRoundTrip | quorum_fullnode_py/client/fullnode.py:20 | the decimal text of any integer reads back as that integer |
| Text.Basename | quorum_fullnode_py/types/data.py:34 | `os.path.basename` is the suffix after the last '/', holds no '/', and is the whole path when the path has no '/' |
| Values.Or | quorum_fullnode_py/api/fullnode.py:88 | `a or b` is `a` when `a` is truthy and `b` otherwise |
| Values.Put | quorum_fullnode_py/api/fullnode.py:375 | `d[k] = x` keeps the key order (a new key goes last), makes `k` look up `x`, and leaves every other key's value alone |
| Values.PutNew | quorum_fullnode_py/api/fullnode.py:375 | storing under a key not yet present appends that entry |
| Values.GetOr | quorum_fullnode_py/api/fullnode.py:61 | `d.get(k, default)` is the default for a missing key and the stored value otherwise |
| Values.Remove | quorum_fullnode_py/types/data.py:239 | `del d[k]` removes exactly the key `k` and leaves the other lookups unchanged |
| Values.RemoveSnoc | quorum_fullnode_py/types/data.py:239 | deleting the key of the last entry, held by no earlier entry, gives back the dict without that entry |
| Values.PutAllFind | quorum_fullnode_py/api/fullnode.py:372-375 | after a run of `d[k] = x` the keys are the old ones and the assigned ones; a key never assigned keeps its lookup, and an assigned key looks up the value of the last assignment to it |
| Values.Get | quorum_fullnode_py/api/fullnode.py:187 | `.get(k, default)` succeeds exactly on dicts, and then yields the value stored under `k`, or the default when `k` is missing |
| Values.Index | quorum_fullnode_py/api/fullnode.py:322 | `v[k]` succeeds exactly when `v` is a dict holding `k`, and then yields the value stored under `k` |
| Values.Iterate | quorum_fullnode_py/api/fullnode.py:268 | iterating a list walks its items; iterating None, a bool or an int raises |
| Values.DumpsStrings | quorum_fullnode_py/api/fullnode.py:435 | every list of strings serialises as the list of its quoted items |
| Values.DumpsStrPair | quorum_fullnode_py/api/fullnode.py:398-400 | a dict of two strings, such as the `set_trx_auth` config, always serialises |
| Values.Dumps | quorum_fullnode_py/api/fullnode.py:398-400 | `json.dumps` refuses bytes, and a serialised value is non-empty text whose first character is '"' exactly for a string, '[' exactly for a list and '{' exactly for a dict |
| Values.DumpsStrStrList | quorum_fullnode_py/api/fullnode.py:431-435 | a dict of two strings and a string list, such as the `_update_list` config, always serialises |
| Endpoints.RouteNamesGroup | quorum_fullnode_py/api/base.py:34-137 | every routed, group-scoped endpoint puts its group id in the group position of its path, provided the ids hold no '/' |
| Endpoints.RouteOf | quorum_fullnode_py/api/base.py:26-142 | every path starts with '/', and exactly the token-list, revoke, remove, consensus and user-update endpoints have no helper in `base.py` |
| Endpoints.GroupPathsNameGroup | quorum_fullnode_py/api/base.py:34-101 | the group, seed, block, startsync, pubqueue, trx, post and listing paths name their group |
| Endpoints.SettingPathsNameGroup | quorum_fullnode_py/api/base.py:103-137 | the remaining group-scoped paths (appconfig, auth, allow/deny lists, announced users, producers) name their group |
| Endpoints.ConfigPathsNameGroup | quorum_fullnode_py/api/base.py:103-122 | the appconfig, trx auth, allow-list and deny-list paths name their group |
| Endpoints.MemberPathsNameGroup | quorum_fullnode_py/api/base.py:127-137 | the announced-user and producer paths name their group |
| Endpoints.VerbatimIdsCollide | quorum_fullnode_py/api/base.py:36-39 | because ids are interpolated verbatim, the group-info request for the id `g/seed` is the very request that asks for group `g`'s seed |
| Endpoints.DumpBools | quorum_fullnode_py/api/base.py:96-98 | the rewrite keeps the number of parameters and treats each entry on its own |
| Endpoints.DumpBoolsMeaning | quorum_fullnode_py/api/base.py:96-98 | after the rewrite no bool is left, keys and order are kept, `True`/`False` become "true"/"false", other values are untouched, and a second rewrite changes nothing |
| Endpoints.DumpBoolsInPlace | quorum_fullnode_py/api/base.py:96-98 | the loop over the caller's dict leaves it holding exactly the rewritten parameters |
| Endpoints.QueryOnLastSegment | quorum_fullnode_py/api/base.py:94-100 | the query string is glued to the last path segment, `content` |
| Endpoints.ContentPathSegments | quorum_fullnode_py/api/base.py:93-101 | the listing path names its group, with or without a query string |
| Endpoints.ContentPath | quorum_fullnode_py/api/base.py:93-101 | the listing path always starts with the bare `/app/api/v1/group/{id}/content` |
| Endpoints.ContentQueryMarker | quorum_fullnode_py/api/base.py:95-100 | a '?' appears in the listing path exactly when there are parameters, and what precedes it is always the bare listing path |
| Endpoints.ListingAndPostingPaths | quorum_fullnode_py/api/base.py:90-94 | listing is a GET under `/app/api/v1/group/{id}/content`, posting is a POST under `/api/v1/group/{id}/content`, and the two paths never coincide |
| Endpoints.QuotePlus | quorum_fullnode_py/api/base.py:99 | `quote_plus` output holds only unreserved characters, '+' and percent escapes |
| Endpoints.StrOf | quorum_fullnode_py/api/base.py:99 | `str(v)` of a parameter keeps a string as it is, writes a bool as `True`/`False`, and writes a list as bracketed text, so a list goes out as one value |
| Endpoints.ReprString | quorum_fullnode_py/api/base.py:99 | `repr` of a string is enclosed in one kind of quote, double quotes exactly when the text holds a single quote and no double quote, and is at least two characters longer than the text |
| Endpoints.EncodePairAlphabet | quorum_fullnode_py/api/base.py:99 | each encoded `key=value` field holds no '&' |
| Endpoints.UrlEncodeAlphabet | quorum_fullnode_py/api/base.py:99 | the encoded query holds only field characters and the '&' separators |
| Endpoints.UrlEncodeFields | quorum_fullnode_py/api/base.py:99 | splitting the query at '&' gives back exactly one field per parameter, in order, so a list value stays a single field |
| Exceptions.InitClass | quorum_fullnode_py/exceptions.py:27-30 | the `__init__` an instance runs is that of its nearest ancestor defining one |
| Exceptions.DefaultCode | quorum_fullnode_py/exceptions.py:7-62 | the default code is 400 exactly for the client exceptions, 500 exactly for the chain exceptions and 404 exactly for `RumException` itself |
| Exceptions.ClientErrorsDefaultTo400 | quorum_fullnode_py/exceptions.py:27-49 | every client exception, the four Param errors and `APILimitedException` included, defaults to error code 400 |
| Exceptions.HierarchyShape | quorum_fullnode_py/exceptions.py:4-62 | every class derives from `RumException` (default 404); `RumChainException` (default 500) is not a client exception; the client exceptions are exactly the other classes |
| Exceptions.ClassName | quorum_fullnode_py/exceptions.py:20 | a class name is non-empty and holds no '(' |
| Exceptions.ClassNamed | quorum_fullnode_py/exceptions.py:20 | a name read back from a `repr` maps only to the class bearing that name |
| Exceptions.ClassNamedInverse | quorum_fullnode_py/exceptions.py:20 | class names are distinct, so the name identifies the class |
| Exceptions.Raise | quorum_fullnode_py/exceptions.py:7-13 | a raised exception records its class and message, with code 400 for client exceptions and 500 for chain exceptions |
| Exceptions.Str | quorum_fullnode_py/exceptions.py:15-17 | `str(e)` starts with `Error code: ` and ends with the message |
| Exceptions.Repr | quorum_fullnode_py/exceptions.py:19-21 | `repr(e)` starts with the class name and '(' and ends with ')' |
| Exceptions.StrCarriesCode | quorum_fullnode_py/exceptions.py:15-17 | the error code can be read back from `str(e)`, whatever the message holds |
| Exceptions.ReprParts | quorum_fullnode_py/exceptions.py:19-21 | the `repr` text splits at its first '(' into the class name and the code text |
| Exceptions.ReprCarriesClassAndCode | quorum_fullnode_py/exceptions.py:19-21 | the class and the error code can be read back from `repr(e)`, whatever the message holds |
| FullNodeApi.CheckTrxType | quorum_fullnode_py/api/fullnode.py:30-34 | a type is accepted exactly when its upper case is one of the seven trx types, and comes back upper-cased; otherwise a `ParamValueError` |
| FullNodeApi.CheckTrxTypeIgnoresCase | quorum_fullnode_py/api/fullnode.py:30-34 | two spellings that differ only in case give the same outcome |
| FullNodeApi.CheckTrxTypeAcceptsListed | quorum_fullnode_py/api/fullnode.py:11-34 | each listed type is accepted as written and in lower case, and comes back as written |
| FullNodeApi.ListedAreCapitals | quorum_fullnode_py/api/fullnode.py:11-19 | the seven trx types are written in capitals and underscores |
| FullNodeApi.CapitalsAreUpper | quorum_fullnode_py/api/fullnode.py:30-32 | a text of capitals and underscores is its own upper case, also after lower-casing |
| FullNodeApi.CheckTrxMode | quorum_fullnode_py/api/fullnode.py:37-42 | "dny"/"deny" give "dny" and "alw"/"allow" give "alw", in any case; anything else raises `ParamValueError` with the source's message |
| FullNodeApi.CheckTrxModeIgnoresCase | quorum_fullnode_py/api/fullnode.py:37-42 | two spellings that differ only in case give the same outcome |
| FullNodeApi.GroupIdOf | quorum_fullnode_py/api/fullnode.py:46-50 | the id is the explicit one when it is non-empty, else the current one; when both are empty the error is `ParamValueError("group_id is required")` |
| FullNodeApi.GroupsOf | quorum_fullnode_py/api/fullnode.py:87-89 | a falsy answer gives an empty list; a truthy answer must be a dict; the result is truthy or the empty list |
| FullNodeApi.GroupIdsOf | quorum_fullnode_py/api/fullnode.py:91-94 | a falsy answer lists no group ids |
| FullNodeApi.IndexEach | quorum_fullnode_py/api/fullnode.py:94 | the comprehension succeeds exactly when every item has the key, and then yields each item's value in order |
| FullNodeApi.JoinedIn | quorum_fullnode_py/api/fullnode.py:52-56 | the membership test passes exactly when the id is among the listed group ids; otherwise it raises `RumChainException` naming the group |
| FullNodeApi.OwnerIn | quorum_fullnode_py/api/fullnode.py:58-65 | the ownership test passes exactly when `user_pubkey` equals `owner_pubkey`, missing keys defaulting to "user" and "owner"; otherwise it raises `RumChainException` naming the group |
| FullNodeApi.OwnerDefaults | quorum_fullnode_py/api/fullnode.py:61 | info with neither key always fails; info naming only `owner_pubkey` = "user" passes; equal keys pass |
| FullNodeApi.TokenScope | quorum_fullnode_py/api/fullnode.py:151-157 | the role defaults to "node"; any other role than node or chain is refused; chain has no group; node needs a group id |
| FullNodeApi.CreateTokenPayload | quorum_fullnode_py/api/fullnode.py:101-129 | the token body is built exactly when the role rules pass, and fails with their error otherwise |
| FullNodeApi.CreateTokenShape | quorum_fullnode_py/api/fullnode.py:113-129 | the body carries the role, the group (null for chain), the name (given, else "allow-chain" or "allow-{group}") and the expiry (given, else five years ahead) |
| FullNodeApi.TokenPayload | quorum_fullnode_py/api/fullnode.py:151-162 | the revoke/remove body is built exactly when the role rules pass and carries the role, the group and the token |
| FullNodeApi.JoinedSpec | quorum_fullnode_py/api/fullnode.py:52-56 | without a group id nothing is sent; otherwise one groups request is sent and the membership test decides on its answer |
| FullNodeApi.JoinedPassed | quorum_fullnode_py/api/fullnode.py:52-56 | a membership guard that passed resolved the id, sent one groups request, and found the id in its answer |
| FullNodeApi.GroupInfoRequest | quorum_fullnode_py/api/fullnode.py:194-197 | `group_info` runs the membership guard again, then requests the group's info |
| FullNodeApi.OwnerGuardNeedsId | quorum_fullnode_py/api/fullnode.py:58-59 | without a group id the owner guard fails before sending anything |
| FullNodeApi.OwnerGuardShape | quorum_fullnode_py/api/fullnode.py:58-65 | an owner guard that passed sent the groups request twice and then the group info, and both the membership and the ownership tests passed |
| FullNodeApi.OwnerSpec | quorum_fullnode_py/api/fullnode.py:58-65 | an owner guard that passed hands on the group id it resolved |
| FullNodeApi.OwnerGuardPrefix | quorum_fullnode_py/api/fullnode.py:58-65 | the owner guard never drops requests sent before it |
| FullNodeApi.Unwrap | quorum_fullnode_py/api/fullnode.py:96-99 | every wrapper but five returns the answer as is; `pubkeytoaddr`, `seed` and `pubqueue` need a dict answer and return its `addr`, `seed` or `Data` when present and the whole answer otherwise; the allow and deny lists return the answer when truthy and an empty list otherwise |
| FullNodeApi.WrapSpec | quorum_fullnode_py/api/fullnode.py:67-645 | a thin wrapper first runs its guard (none, id, or joined), sends nothing when the guard fails, and otherwise sends its one request for the resolved group |
| FullNodeApi.GuardedExactlyWhenScoped | quorum_fullnode_py/api/fullnode.py:46-56 | a wrapper runs a guard exactly when its request is about a group, named in its path or as the `group_id` of its body |
| FullNodeApi.UnroutedWrappers | quorum_fullnode_py/api/fullnode.py:133-645 | exactly the token-list, producer, user-update and consensus wrappers send a request that `base.py` has no helper for |
| FullNodeApi.WrapperPathNamesGroup | quorum_fullnode_py/api/fullnode.py:292-634 | a guarded wrapper's request is scoped to the group its guard resolved, unless it names the group in its body |
| FullNodeApi.WrapperBodyNamesGroup | quorum_fullnode_py/api/fullnode.py:233-645 | the leave, clear and announce requests carry the resolved group as `group_id` in their body |
| FullNodeApi.WrapperTargetsGroup | quorum_fullnode_py/api/fullnode.py:233-645 | every guarded wrapper's request is about the group its guard resolved, in its path or in its body |
| FullNodeApi.ConsensusRequests | quorum_fullnode_py/api/fullnode.py:544-550 | `get_consensus` and `get_consensus_req` on a resolved group each send their one request and return its answer |
| FullNodeApi.ContentParams | quorum_fullnode_py/api/fullnode.py:258-266 | the parameters are always `num` and `reverse`, then `start_trx` and `include_start_trx` only for a truthy start, then `senders` only when non-empty |
| FullNodeApi.ListingAlwaysQueried | quorum_fullnode_py/api/fullnode.py:257-268 | the listing request always has a query string after the bare listing path |
| FullNodeApi.DecodeTrx | quorum_fullnode_py/api/fullnode.py:269-274 | a listed trx keeps its keys and every entry but `Data`; `Data` is replaced by its decoding when that succeeds and is kept otherwise; non-dicts pass unchanged |
| FullNodeApi.DecodeAll | quorum_fullnode_py/api/fullnode.py:268-275 | the decoded listing has the node's length and order, each entry decoded on its own |
| FullNodeApi.GetContentSpec | quorum_fullnode_py/api/fullnode.py:248-275 | without a group id nothing is sent; otherwise exactly one listing request is sent, and the result is the decoded entries when the answer is iterable |
| FullNodeApi.TrxSpec | quorum_fullnode_py/api/fullnode.py:277-290 | a falsy trx id returns `{}` and sends nothing |
| FullNodeApi.TrxListsFirst | quorum_fullnode_py/api/fullnode.py:283-290 | with an id, the first request is the one-entry listing anchored at it; a non-empty page gives its decoded first entry and nothing more is sent; an empty page falls back to `get_trx` for the id; an unreadable page is the error |
| FullNodeApi.AckSpec | quorum_fullnode_py/api/fullnode.py:312-316 | acknowledging an empty list returns True and sends nothing; otherwise one acknowledgement of the whole list is sent |
| FullNodeApi.FailedIdOf | quorum_fullnode_py/api/fullnode.py:321-325 | a queue entry contributes at most one id, none unless its state is "FAIL", and a failed entry needs `Trx.TrxId` |
| FullNodeApi.FailedTrxIds | quorum_fullnode_py/api/fullnode.py:321-325 | a readable queue gives at most one id per entry |
| FullNodeApi.FailedTrxIdsOne | quorum_fullnode_py/api/fullnode.py:321-325 | a well-formed entry contributes its trx id exactly when its state is "FAIL" |
| FullNodeApi.FailedTrxIdsConcat | quorum_fullnode_py/api/fullnode.py:321-325 | the failed ids of a queue are those of its parts in queue order, and the first malformed entry decides the error |
| FullNodeApi.AutoAckShape | quorum_fullnode_py/api/fullnode.py:318-326 | `autoack` reads the queue once, then acknowledges exactly its failed ids in one request, or sends nothing more when there are none |
| FullNodeApi.AutoAckSpec | quorum_fullnode_py/api/fullnode.py:318-326 | without a group id nothing is sent and the error is `ParamValueError("group_id is required")`; requests already sent are kept |
| FullNodeApi.OwnerPost | quorum_fullnode_py/api/fullnode.py:647-659 | an owner-guarded post sends nothing after a failed guard or a refused payload, and otherwise sends exactly its one post |
| FullNodeApi.AppconfigPayload | quorum_fullnode_py/api/fullnode.py:349-358 | the action is accepted in any case exactly when it is add or remove; otherwise `ParamValueError("action must be add or remove")` |
| FullNodeApi.AppconfigPayloadShape | quorum_fullnode_py/api/fullnode.py:351-358 | an accepted item carries the lower-cased action, the group, the value and the memo (given, else "update {name}") |
| FullNodeApi.UpdateAppconfigSpec | quorum_fullnode_py/api/fullnode.py:338-359 | after a passed owner guard and an accepted item exactly one appconfig post of that item is sent; otherwise it fails with nothing sent after the guard |
| FullNodeApi.TrxAuthPayload | quorum_fullnode_py/api/fullnode.py:393-402 | the mode is checked before the trx type, and each failure is that check's own error |
| FullNodeApi.TrxAuthPayloadShape | quorum_fullnode_py/api/fullnode.py:395-402 | with a valid mode and type the body names the group, the kind `set_trx_auth_mode` and the serialised config |
| FullNodeApi.SetTrxAuthSpec | quorum_fullnode_py/api/fullnode.py:378-403 | after a passed owner guard and an accepted mode and type exactly one chain config post of that body is sent; otherwise it fails with nothing sent after the guard |
| FullNodeApi.ChainconfigPayloadShape | quorum_fullnode_py/api/fullnode.py:432-437 | a chain config body carries the group, the kind of change and the config text |
| FullNodeApi.CheckTrxTypes | quorum_fullnode_py/api/fullnode.py:428 | the list is accepted exactly when every item is a string naming a listed type, and comes back upper-cased item by item |
| FullNodeApi.ListTypesDefault | quorum_fullnode_py/api/fullnode.py:427 | without trx types the list edit is about `POST` alone |
| FullNodeApi.UpdateListPayload | quorum_fullnode_py/api/fullnode.py:426-437 | the mode is checked first, then the types, then the action, which must be exactly "add" or "remove" |
| FullNodeApi.UpdateListPayloadShape | quorum_fullnode_py/api/fullnode.py:431-437 | an accepted edit names the group, the kind `upd_{mode}_list` and the serialised config |
| FullNodeApi.UpdateListSpec | quorum_fullnode_py/api/fullnode.py:415-438 | after a passed owner guard and an accepted edit exactly one chain config post of that body is sent; otherwise it fails with nothing sent after the guard |
| FullNodeApi.ListEditDefaults | quorum_fullnode_py/api/fullnode.py:440-490 | each of the four list edits, without types, goes through for `POST` on the list of its mode |
| FullNodeApi.ActionCase | quorum_fullnode_py/api/fullnode.py:429 | "ADD" is accepted by `update_appconfig` and `_approve_user` but refused by `_update_list` |
| FullNodeApi.ApproveUserPayload | quorum_fullnode_py/api/fullnode.py:652-658 | the action is accepted in any case exactly when it is add or remove; otherwise the source's `ParamValueError` |
| FullNodeApi.ApproveUserPayloadShape | quorum_fullnode_py/api/fullnode.py:654-658 | an accepted approval names the user, the group and the lower-cased action |
| FullNodeApi.ApproveUserSpec | quorum_fullnode_py/api/fullnode.py:647-659 | after a passed owner guard and an accepted action exactly one user post of that approval is sent; otherwise it fails with nothing sent after the guard |
| FullNodeApi.AuthEntry | quorum_fullnode_py/api/fullnode.py:375 | the entry added is the answer's `TrxType` mapped to its `AuthType` |
| FullNodeApi.GetTrxAuthSpec | quorum_fullnode_py/api/fullnode.py:361-368 | a missing group or an unknown type sends nothing; otherwise one request for the upper-cased type |
| FullNodeApi.AuthFromCompletes | quorum_fullnode_py/api/fullnode.py:373-376 | a loop over listed types that completes has sent one auth request per type, in order |
| FullNodeApi.AuthFromWithin | quorum_fullnode_py/api/fullnode.py:373-376 | whatever happens, the loop sends a prefix of those requests, and a failure comes after at least one of them |
| FullNodeApi.AuthFromShape | quorum_fullnode_py/api/fullnode.py:373-376 | the loop sends only the listed auth requests, in order, and all of them when it succeeds |
| FullNodeApi.AuthFromKeepsKeys | quorum_fullnode_py/api/fullnode.py:372-376 | the loop only adds keys to the table |
| FullNodeApi.AnswersToEach | quorum_fullnode_py/api/fullnode.py:373-375 | each answer the loop reads is the node's answer to its request, given everything sent before it |
| FullNodeApi.AuthEntriesEach | quorum_fullnode_py/api/fullnode.py:375 | the answers give rows exactly when each of them does, and row `i` is what answer `i` says |
| FullNodeApi.AuthFromTable | quorum_fullnode_py/api/fullnode.py:372-376 | a loop that finishes has read a row out of every answer, and its table is those rows put in one after the other |
| FullNodeApi.GetAuthSpec | quorum_fullnode_py/api/fullnode.py:370-376 | without a current group nothing is sent and the error is `ParamValueError("group_id is required")` |
| FullNodeApi.GetAuthShape | quorum_fullnode_py/api/fullnode.py:370-376 | `get_auth` on the current group sends a prefix of the seven auth requests, all seven on success, and then returns the dict built by putting in one row per answer, in order |
| FullNodeApi.GetAuthTable | quorum_fullnode_py/api/fullnode.py:370-376 | on success each of the seven answers gave its `TrxType` and `AuthType`; a type is a key of the table exactly when some answer names it, and it maps to the `AuthType` of the last answer that does |
| FullNodeApi.PeersOfFirstMatch | quorum_fullnode_py/api/fullnode.py:188-191 | the peers are those of the first network entry about the group, or an empty list when no entry is about it |
| FullNodeApi.GroupNetworkSpec | quorum_fullnode_py/api/fullnode.py:183-192 | with a group id, exactly one network request is sent |
| FullNodeApi.ProducersSpec | quorum_fullnode_py/api/fullnode.py:492-495 | `producers` sends exactly what `get_consensus` sends |
| FullNodeApi.SettingsDictInjective | quorum_fullnode_py/api/fullnode.py:592-612 | comparing the payload with the settings in force is comparing the five settings |
| FullNodeApi.FirstReq | quorum_fullnode_py/api/fullnode.py:576-579 | no proof responses means an empty request; a non-empty list gives the `Req` of its first entry; anything else truthy fails |
| FullNodeApi.TickError | quorum_fullnode_py/api/fullnode.py:583-590 | there is no error exactly when every truthy tick argument meets its bound: 500, 1000 and 10 |
| FullNodeApi.IntOr | quorum_fullnode_py/api/fullnode.py:603-609 | a missing or zero argument takes the default, any other value is kept |
| FullNodeApi.Existing | quorum_fullnode_py/api/fullnode.py:592-599 | the settings in force can be read exactly when the request is a dict, and then each one is `req.get(key) or fallback` for its key and its fallback 1, 500, 1000, 10 or no producers |
| FullNodeApi.ExistingFallbacks | quorum_fullnode_py/api/fullnode.py:594-598 | with no proof request the settings are 1, 500, 1000, 10 and no producers |
| FullNodeApi.Planned | quorum_fullnode_py/api/fullnode.py:600-610 | every truthy argument is what gets sent for its setting |
| FullNodeApi.PlannedMerge | quorum_fullnode_py/api/fullnode.py:601-610 | each setting the arguments leave open keeps its value in force, except the start epoch, which becomes 1; planning twice changes nothing more |
| FullNodeApi.NoArgumentsResetStart | quorum_fullnode_py/api/fullnode.py:581-613 | without arguments there is nothing to update exactly when the start epoch in force is already 1 |
| FullNodeApi.ProofReq | quorum_fullnode_py/api/fullnode.py:574-579 | the consensus is read first; when its answer reads, the second request is the consensus request for the `proof_req_id` it gave, the log is exactly those two, and the result is the first request of the proof responses |
| FullNodeApi.UpdateConsensusShape | quorum_fullnode_py/api/fullnode.py:564-621 | the consensus is read before anything is checked; a bad tick fails after the reads; when the reads and checks pass, an unchanged plan returns "Nothing to update" with nothing posted, and a changed plan is posted and its answer returned, unless its tick and tick length cannot be compared, which fails with nothing posted; the plan is the only thing ever posted |
| FullNodeApi.UpdateConsensusSpec | quorum_fullnode_py/api/fullnode.py:564-621 | without a group id nothing is sent and the error is `ParamValueError("group_id is required")`; requests already sent are kept |
| FullNodeApi.AddUserProbesTarget | quorum_fullnode_py/api/fullnode.py:661-669 | the corrected `add_user` probes the target group first; an approval there is returned with nothing else sent, and any other answer goes on to `_approve_user` in that group; without a group id it goes straight to `_approve_user` |
| FullNodeApi.AddUserProbeThenApprove | quorum_fullnode_py/api/fullnode.py:661-669 | whatever group is probed: without one nothing is sent before `_approve_user`; otherwise the probe is the first request, an approval is returned with nothing else sent, and any other answer goes on to `_approve_user` after the probe |
| FullNodeApi.AddUserAsWrittenFallsThrough | quorum_fullnode_py/api/fullnode.py:661-669 | as written, `add_user` probes the current group: with none set it goes straight to `_approve_user`; otherwise an approval in the current group is returned, and any other answer goes on to `_approve_user` for the target group |
| FullNodeApi.AddUserAsWrittenProbesCurrent | quorum_fullnode_py/api/fullnode.py:664 | as written, a client on group A adding to group B a user approved only in A gets A's approval back and never touches B |
| FullNodeApi.AddUserProbesRequestedGroup | quorum_fullnode_py/api/fullnode.py:664 | corrected, the same call probes B, finds no approval, and goes on to the guard for B |
| FullNodeApiObject.Api.constructor | quorum_fullnode_py/api/base.py:16-18 | a new façade has its node, the given group and an empty log |
| FullNodeApiObject.Api.Send | quorum_fullnode_py/api/base.py:20-24 | one request is logged and answered by the node, given everything sent before |
| FullNodeApiObject.Api.Groups | quorum_fullnode_py/api/fullnode.py:87-89 | `groups` sends one request and normalises its answer |
| FullNodeApiObject.Api.GroupIds | quorum_fullnode_py/api/fullnode.py:91-94 | `groups_id` sends one request and lists each group's `group_id` |
| FullNodeApiObject.Api.CheckJoined | quorum_fullnode_py/api/fullnode.py:52-56 | the membership guard behaves as its specification and keeps the current group |
| FullNodeApiObject.Api.CheckOwner | quorum_fullnode_py/api/fullnode.py:58-65 | the owner guard behaves as its specification and keeps the current group |
| FullNodeApiObject.Api.Request | quorum_fullnode_py/api/fullnode.py:67-645 | every thin wrapper behaves as its specification: the guard, then one request |
| FullNodeApiObject.Api.CreateToken | quorum_fullnode_py/api/fullnode.py:101-130 | a refused role or a missing group sends nothing; otherwise exactly the token request is sent |
| FullNodeApiObject.Api.TokenChange | quorum_fullnode_py/api/fullnode.py:144-181 | revoke and remove send nothing when refused, else exactly their one request |
| FullNodeApiObject.Api.GetContent | quorum_fullnode_py/api/fullnode.py:248-275 | the decoding loop produces exactly the decoded listing of its specification |
| FullNodeApiObject.Api.Trx | quorum_fullnode_py/api/fullnode.py:277-290 | `trx` behaves as its specification |
| FullNodeApiObject.Api.Ack | quorum_fullnode_py/api/fullnode.py:312-316 | `ack` behaves as its specification |
| FullNodeApiObject.Api.AutoAck | quorum_fullnode_py/api/fullnode.py:318-326 | `autoack` behaves as its specification |
| FullNodeApiObject.Api.UpdateAppconfig | quorum_fullnode_py/api/fullnode.py:338-359 | the owner guard, the action check and one appconfig post, as specified |
| FullNodeApiObject.Api.GetTrxAuth | quorum_fullnode_py/api/fullnode.py:361-368 | `get_trx_auth` behaves as its specification |
| FullNodeApiObject.Api.GetAuth | quorum_fullnode_py/api/fullnode.py:370-376 | the loop over the seven types builds exactly the table of its specification, with the same requests |
| FullNodeApiObject.Api.SetTrxAuth | quorum_fullnode_py/api/fullnode.py:378-403 | the owner guard, the mode and type checks and one chain config post, as specified |
| FullNodeApiObject.Api.UpdateList | quorum_fullnode_py/api/fullnode.py:415-438 | the owner guard, the mode, type and action checks and one chain config post, as specified |
| FullNodeApiObject.Api.EditList | quorum_fullnode_py/api/fullnode.py:440-490 | each list edit is `_update_list` with its fixed mode, memo and action |
| FullNodeApiObject.Api.GroupNetwork | quorum_fullnode_py/api/fullnode.py:183-192 | the scan with early exit returns exactly the peers its specification finds |
| FullNodeApiObject.Api.Producers | quorum_fullnode_py/api/fullnode.py:492-495 | `producers` behaves as its specification |
| FullNodeApiObject.Api.ProofRequest | quorum_fullnode_py/api/fullnode.py:573-579 | the two reads before the consensus update, as specified |
| FullNodeApiObject.Api.UpdateConsensus | quorum_fullnode_py/api/fullnode.py:564-621 | `update_consensus` behaves as its specification, which fails with nothing posted when the tick and tick length that the `<` compares are not both numbers, both strings or both lists |
| FullNodeApiObject.Api.ApproveUser | quorum_fullnode_py/api/fullnode.py:647-659 | `_approve_user` behaves as its specification |
| FullNodeApiObject.Api.AddUser | quorum_fullnode_py/api/fullnode.py:661-669 | `add_user` behaves as written: its probe asks about the current group, an approval there is returned, and anything else goes on to `_approve_user` |
| FullNodeApiObject.Api.RemoveUser | quorum_fullnode_py/api/fullnode.py:671-673 | `remove_user` is `_approve_user` with action "remove" |
| Packer.Guess | quorum_fullnode_py/types/data.py:26 | sniffing succeeds exactly when the media is recognised (else the attribute access on None raises) |
| Packer.ReadFile | quorum_fullnode_py/types/data.py:65-77 | a missing path and a non-file each raise their `ParamValueError`; otherwise the file's bytes |
| Packer.GetFileBytes | quorum_fullnode_py/types/data.py:150-165 | bytes pass unchanged; an existing path is read as a file; any other string is base64-decoded; lists and dicts raise `ParamTypeError` |
| Packer.FilenameInit | quorum_fullnode_py/types/data.py:31-37 | a file keeps its base name; anything else gets the fresh stamp with the sniffed extension |
| Packer.ZipImageBytes | quorum_fullnode_py/types/data.py:40-62 | bytes under the budget (zero meaning 200 kB) come back unchanged |
| Packer.ZipGif | quorum_fullnode_py/types/data.py:88-119 | a GIF under the budget is read back unchanged |
| Packer.ZipImage | quorum_fullnode_py/types/data.py:122-132 | an unreadable input fails with its own error; anything not read from a file goes through the byte compressor |
| Packer.GroupIconUri | quorum_fullnode_py/types/data.py:135-147 | the icon URI is built exactly when compression and sniffing succeed |
| Packer.GroupIconIsDataUri | quorum_fullnode_py/types/data.py:139-146 | the icon is a data URI that gives back the sniffed media type and the base64 of the compressed image |
| Packer.DataUriRoundTrip | quorum_fullnode_py/types/data.py:139-146 | a `data:` URI reads back into the media type and payload it was built from |
| Packer.ImageEntry | quorum_fullnode_py/types/data.py:192-194 | an image entry has exactly the keys name, mediaType and content, in that order |
| Packer.ImageBudget | quorum_fullnode_py/types/data.py:169 | the per-image budget times the number of images kept fits in 200 kB, and is at least 50 kB |
| Packer.PackImage | quorum_fullnode_py/types/data.py:172-194 | a dict with empty content is refused; a dict's content is kept as given; anything else becomes the base64 of its compressed bytes |
| Packer.SmallImageUnchanged | quorum_fullnode_py/types/data.py:184-188 | raw bytes within budget are attached as their own base64, unchanged |
| Packer.PackEach | quorum_fullnode_py/types/data.py:170-196 | packing succeeds exactly when every image packs, keeps order and length, and fails with the first failure |
| Packer.PackImages | quorum_fullnode_py/types/data.py:168-196 | only the first four images are packed, each with the shared budget; an empty list divides by zero |
| Packer.PackImagesShape | quorum_fullnode_py/types/data.py:168-196 | the result has min(n, 4) entries within the trx budget, each with exactly the three keys, and dict contents kept |
| Packer.EmptyDictImageRejected | quorum_fullnode_py/types/data.py:172-178 | a kept dict image with empty content makes the whole list fail |
| Packer.PackEachCollects | quorum_fullnode_py/types/data.py:171-196 | a loop that packed every image in order built what the specification builds |
| Packer.PackEachStops | quorum_fullnode_py/types/data.py:171-196 | a loop that stopped at the first failure has that failure as its result |
| Packer.PackImagesLoop | quorum_fullnode_py/types/data.py:168-196 | the appending loop returns exactly the specified packing |
| Packer.PackContent | quorum_fullnode_py/types/data.py:199-215 | an empty text is refused even with images; otherwise packing fails only through the images |
| Packer.InsertNoteKeys | quorum_fullnode_py/types/data.py:207-214 | the note's keys are type, content, then image and name when present, then id, all distinct |
| Packer.InsertNoteFind | quorum_fullnode_py/types/data.py:207-214 | the note looks up its type, text, id, image and name as inserted |
| Packer.PackContentShape | quorum_fullnode_py/types/data.py:199-215 | the packed note is a Note with the text, the images only when given, the name only when truthy, and the id (given, else the fresh uuid) |
| Packer.InsertNoteEndsWithId | quorum_fullnode_py/types/data.py:214 | the note ends with its id entry, and no earlier entry has that key or `inreplyto` |
| Packer.PackContentEndsWithId | quorum_fullnode_py/types/data.py:214 | the packed note ends with its id entry, and no earlier entry has that key or `inreplyto` |
| Packer.Create | quorum_fullnode_py/types/data.py:225-228 | a Create activity carries its object |
| Packer.NewPost | quorum_fullnode_py/types/data.py:222-228 | `new_post` succeeds exactly when packing does, and is the Create of the packed note |
| Packer.Update | quorum_fullnode_py/types/data.py:240-247 | an Update names the note `{type: Note, id}` (null id when none given) and carries the result |
| Packer.EditPost | quorum_fullnode_py/types/data.py:235-247 | `edit_post` succeeds exactly when packing does |
| Packer.EditPostShape | quorum_fullnode_py/types/data.py:238-247 | the edit's result is the packed note with only its trailing id entry removed |
| Packer.Reply | quorum_fullnode_py/types/data.py:250-260 | `reply` succeeds exactly when packing does |
| Packer.ReplyExtendsNewPost | quorum_fullnode_py/types/data.py:258-260 | a reply is the new post from the same arguments with `inreplyto` naming the replied note appended |
| Packer.ActivityOf | quorum_fullnode_py/types/data.py:263-264 | an activity reads back as its type and object |
| Packer.UndoWrapsAction | quorum_fullnode_py/types/data.py:266-340 | each undo is an Undo whose object is exactly the action it takes back |
| Packer.ActionTargets | quorum_fullnode_py/types/data.py:231-340 | delete, like and dislike act on a Note; follow and block act on a Person |
| Packer.Profile | quorum_fullnode_py/types/data.py:291-303 | no name and no avatar raises `ParamValueError`; otherwise the profile fails only when the avatar does not pack |
| Packer.AvatarGetsWholeBudget | quorum_fullnode_py/types/data.py:302 | the avatar is packed alone, with the whole 200 kB budget |
| Packer.ProfileShape | quorum_fullnode_py/types/data.py:295-303 | the profile is a Create of type Profile describing the Person, then the name when given, then the one-image list when given |
| Packer.ProfileWithAvatar | quorum_fullnode_py/types/data.py:301-302 | with an avatar, its one-image list is the last entry of the profile |
| Packer.AppconfigItem | quorum_fullnode_py/types/data.py:353-362 | an appconfig item has the keys name, _type, value, action and memo, with type "string" and action "add" |
| Packer.GroupIcon | quorum_fullnode_py/types/data.py:342-351 | the icon item is built exactly when the icon URI is, and carries it under `group_icon` |
| Packer.GroupDesc | quorum_fullnode_py/types/data.py:353-362 | the description is echoed as an added string setting `group_desc` |
| Packer.GroupAnnouncement | quorum_fullnode_py/types/data.py:364-373 | the announcement is echoed as an added string setting `group_announcement` |
| Packer.GroupDefaultPermission | quorum_fullnode_py/types/data.py:375-389 | the permission is refused exactly when its upper case is neither WRITE nor READ, and is stored upper-cased |
| Packer.DefaultPermissionIgnoresCase | quorum_fullnode_py/types/data.py:379 | any spelling of write or read is accepted, and spellings that differ only in case give the same item |
| Client.ResolveApiBase | quorum_fullnode_py/client/fullnode.py:19-22 | a non-zero port wins and means the local node; otherwise a non-empty `api_base` is required, else `ParamValueError("api_base is required")` |
| Client.PortReadBack | quorum_fullnode_py/client/fullnode.py:20 | the port can be read back from the local address, whatever `api_base` was given |
| Client.FullNode.constructor | quorum_fullnode_py/client/fullnode.py:24-25 | a new client and its fresh façade have no group, and the façade has sent nothing |
| Client.FullNode.Connect | quorum_fullnode_py/client/fullnode.py:13-25 | a client is made exactly when an address resolves, with no group on either side |
| Client.FullNode.SetGroupId | quorum_fullnode_py/client/fullnode.py:31-34 | the setter gives the client and its façade the same new group and sends nothing |
| Client.SetThenGroupInfo | tests/test_fullnode.py:42-46 | after the setter, `group_info()` without an id works on the group just set |

## Left out

- HTTP transport (`client/_http.py`): the session, headers, the JWT and `resp.json()` are I/O. The node is a parameter that answers each request from the log of earlier ones.
- The clock and uuid: the five-years-ahead date of `create_token`, the fresh uuid of a post and the `{uuid}-{date}` file stamp are parameters.
- Library internals: base64, `json.loads`, MIME sniffing, file-system access and the image compressors (the JPEG resize loop and gifsicle) are parameters. Only their "under budget, unchanged" short-circuits are stated. `json.dumps` and `urlencode` are modelled.
- The logger calls are not modelled. The `<` comparison that decides the warning at `api/fullnode.py:615-620` is modelled: when the planned tick and tick length cannot be compared, Python raises `TypeError` before posting, and the model fails with nothing posted (`Orderable`). Only the comparison of two lists whose items cannot be compared is not modelled; the model treats any two lists as comparable.
- Python compares `1 == True`; the model's values keep ints and bools apart.
- Case mapping is ASCII-only. Python's Unicode `upper`/`lower` are not modelled.
- ReprString: the `repr` of a list item escapes only ASCII control characters, the quote and the backslash. Python also escapes non-printable non-ASCII characters, such as U+00A0 written as `\xa0`; the model keeps them as they are.
- GetTrxAuthSpec: the default `trx_type="POST"` of `get_trx_auth` (`api/fullnode.py:361`) is not modelled; callers pass the type explicitly.
- FullNodeApiObject.Api.AddUser follows the code as written: the probe takes no group id. `AddUserSpec` is the corrected definition (see Findings). It is not a method of the class because the program does not contain it.
- The endpoints `base.py` does not define (`_revoke_token`, `_remove_token`, `_get_token_list`, `_get_consensus*`, `_update_consensus`, `_update_user`) are logged as abstract requests without a route. The second argument `seed` passes to `_get_seed` is dropped, since the one-argument helper would reject it.
- `AuthEntry` assumes a string `TrxType`. A non-string key in the answer is a failure in the model, whereas Python would store it.
- The unbound `img_bytes` in `_zip_image` (`types/data.py:125-132`) surfaces as a generic failure, not as Python's `UnboundLocalError`.
- `FullNodeApiObject.Api.ProofRequest` sends the consensus reads directly rather than through the `get_consensus` wrappers. `ConsensusRequests` proves that the two agree for a resolved group.
- `connect_peers`, `ask_for_relay` and the other unguarded wrappers are covered only by `WrapSpec`'s general contract. Their bodies are passed to the node as given.
- FullNodeApi.GroupNetworkSpec: its own contract states only the request it sends. Which peers it returns is stated by `PeersOfFirstMatch`, and the method `GroupNetwork` is proved equal to it.
- FullNodeApi.ProducersSpec: its own contract states only the requests it sends. The producer keys it returns are its body's comprehension, with no separate lemma.
- FullNodeApi.AckSpec: for a non-empty list the contract says the call succeeds, not what the node answered.

## Findings

| source | as written | input that shows it | evidently intended | confidence | as-written member | corrected member |
|---|---|---|---|---|---|---|
| quorum_fullnode_py/api/fullnode.py:664 | `add_user` probes `get_announced_user(pubkey)` without its `group_id`, so the probe asks about the client's current group | a client on group A, a user approved in A only, `add_user(pubkey, group_id="B")`: as written the call returns A's approval and never approves the user in B | the probe asks about the group the user is being added to, `get_announced_user(pubkey, group_id)` | not executed | FullNodeApi.AddUserAsWrittenProbesCurrent | FullNodeApi.AddUserProbesRequestedGroup |
