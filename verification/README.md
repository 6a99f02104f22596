# Keycloak admin MCP server and gateway: a verified model

Two services stand between an MCP client and the Keycloak Admin REST API. The MCP server offers
tools; each tool sends a sequence of requests to the gateway, which checks the caller, the path and
the token's scopes before it forwards them. This project models the parts of both services that hold
state, plan changes or decide access, and proves what they promise.

`dafny verify dfyconfig.toml` checks everything.

## What is modelled

- **Audit ledger** (`AuditEntries`, `AuditFiles`, `AuditLogs`, `AuditConcurrency`): a hash-chained
  log with a bounded ring, size-triggered rotation over several files and a checkpoint that rewrites
  the base file. A class with the source's loops refines a functional file model; a step system over
  the three locks covers every interleaving of any number of calls. The hash is any function that is
  injective on entries whose hash field is empty.
- **Client scopes** (`Sorting`, `ScopePlan`, `ScopeTools`, `ScopeLookup`, `Resolution`): add, remove,
  replace and ensure, from paging through the scope list and resolving names, over the plan, to the
  one-at-a-time requests that may fail at any step.
- **Client search** (`ClientRanking`, `SearchOrder`): the merge of two result lists, the exact-match
  filter, the three-key ranking, and what of the server's order survives them.
- **Path guard** (`EdgeGuard`): the predicate at the edge of the MCP server against RFC 3986,
  section 2.1 (percent-encoding) and section 5.2.4 (dot segments).
- **Gateway policy** (`GatewayRoutes`, `GatewayProxy`, `ScopeTable`): path splitting, route families, candidate
  scopes, selection, enforcement, the upstream address and the order of the decisions.
- **Both services together** (`RequestUrls`, `WireRoutes`, `RoleTools`, `CrossService`): the request
  sequences of the role mapping tools, the URL parser between them and the gateway, and the gateway's
  answer for arbitrary arguments.
- **Access at startup and over time** (`BreakGlass`, `RoleGate`): caller allowlists with their
  break-glass override, and the MCP server's own scope and role gates.
- **Registries and bulk tools** (`MetricsRegistry`, `ConfigEdit`, `BulkUpdate`).

Calls to servers, clocks, UUID parsing, regular expressions and Unicode case folding are parameters.

## Results that differ from what one might expect

- `kc-admin-mcp/README.md:161` says the audit log rotates when its size exceeds the limit; the code
  (`kc-admin-mcp/src/audit.rs:337`) rotates as soon as the size reaches it. The two rules differ
  exactly at the limit, which is reachable: `AuditFiles.RotatesAtLimit` and `LimitIsReached`.
- A checkpoint is not atomic: `AuditConcurrency.CheckpointCanLag` gives a run in which the window it
  writes ends in an entry newer than the hash it reports; `CheckpointReports` says exactly when.
- Paging ends early at a page on which fewer than a hundred items parse:
  `ScopeLookup.UnparsableHidesLaterPages`, and exactly when that loses nothing,
  `ScopeLookup.PagingWithUnparsable`.
- The paging cursor saturates at the end of `u32`, so a list of 4294967300 items or more is
  collected with repeats or not at all: `ScopeLookup.PagingExact`. Lookups are not affected by the
  repeats: `ScopeLookup.PagedScanIsServerScan`.
- Arguments of the role mapping tools are put into request paths unescaped, so some values change
  the path. `CrossService.RunPassesExactly` says for which arguments a run still passes the gateway
  on the tool's own scope, `ArgumentsThatMiss` gives a refused value for each kind of argument, and
  `ArgumentsThatSlip` gives values that pass although the request then means something else.
- Updating a registration policy with the default-scopes flag alone also writes the empty scope
  list: `ConfigEdit.FlagAloneClearsScopes` and `ConfigEdit.FlagAloneExample`.
- The search scores exact matches above prefixes and prefixes above matches inside, but a client
  whose internal id holds the term is scored by that before its client id is looked at:
  `ClientRanking.ScoreOrders` says exactly when a prefix comes first, `PrefixScoresAsInside` gives
  an input where it does not.
- Pruning refuses a call without a filter, but a search for a single blank is a filter and selects
  every client with a client id: `BulkUpdate.BlankSearchSelectsAll`.
- The order in which a server lists clients can show in a search result, in two ways: different
  clients under one id, of which the merge keeps the first, and different clients that tie.
  `SearchOrder.ServerOrderShows` gives an input for each; `SearchOrder.ServerOrderShowsExactly` says
  exactly when it shows: a candidate that some order brings among the first `limit` has such a rival.

## Model

| member | source | states |
|---|---|---|
| AuditEntries.SealExtends | kc-admin-mcp/src/audit.rs:186-191 | sealing an entry on the current last hash extends a verified chain |
| AuditEntries.SealKeepsRecord | kc-admin-mcp/src/audit.rs:186-191 | sealing sets the two hash fields, the own one to the digest of the entry without it, and keeps everything else |
| AuditEntries.SuffixVerifies | kc-admin-mcp/src/audit.rs:225-240 | a window cut from a verified chain verifies from the hash just before it and ends in the same hash |
| AuditEntries.SameEndHashSameSuffix | kc-admin-mcp/src/audit.rs:301-309 | two verified windows that end in one hash agree on their common length, whatever they started from |
| AuditEntries.EndHashDeterminesLedger | kc-admin-mcp/src/audit.rs:186-191 | tamper evidence: two complete chains end in the same hash if and only if they are equal entry for entry |
| AuditEntries.EndHashDeterminesWindow | kc-admin-mcp/src/audit.rs:301-309 | two verified windows of equal length have the same final hash if and only if they and their start are equal |
| AuditFiles.SegmentsCutHistory | kc-admin-mcp/src/audit.rs:319-357 | the greedy cut of a history: its segments spell the history, each became full with its last line at most, all but the newest are full |
| AuditFiles.FilesAreNewestSegments | kc-admin-mcp/src/audit.rs:192-203 | refinement: after any run of records from no files, the log files are exactly the newest max_files + 1 segments of the cut |
| AuditFiles.RetainedFiles | kc-admin-mcp/src/audit.rs:319-357 | the files are numbered without holes, well sized, spell a suffix of the history oldest to newest, and miss an entry only when all max_files rotated files exist |
| AuditFiles.RotatesAtLimit | kc-admin-mcp/src/audit.rs:337-339 | with rotation on, the base file is rotated away exactly when its size has reached the limit; the documented rule differs exactly at the limit |
| AuditFiles.RotatesOnlyWithLimit | kc-admin-mcp/src/audit.rs:319-339 | without a limit, with a limit of zero or with no rotated files the base file only grows |
| AuditFiles.SizeAddsUp | kc-admin-mcp/src/audit.rs:332-339 | the size that is compared is the sum of the lines' lengths |
| AuditFiles.LimitIsReached | kc-admin-mcp/src/audit.rs:192-203 | a run of records whose base file has exactly the limit's size, where the two rules differ |
| AuditFiles.RecordsOnlyRun | kc-admin-mcp/src/audit.rs:186-213 | a run without checkpoints leaves files that depend on the history alone |
| AuditFiles.MixedRunKeepsPieces | kc-admin-mcp/src/audit.rs:252-272 | over every run of non-overlapping records and checkpoints each file is a contiguous piece of the history, higher-numbered files end strictly earlier, the base file is a suffix |
| AuditLogs.SnapshotIsWindow | kc-admin-mcp/src/audit.rs:225-240 | the reverse, take, reverse chain yields the newest entries in recording order |
| AuditLogs.AuditLog.constructor | kc-admin-mcp/src/audit.rs:155-184 | a new log is empty and holds at least one entry |
| AuditLogs.AuditLog.Record | kc-admin-mcp/src/audit.rs:186-213 | one record appends one entry to the history, the ring and, when logging, the files: the given entry but for its hash fields, linked to the last hash |
| AuditLogs.AuditLog.RotateIfNeeded | kc-admin-mcp/src/audit.rs:319-357 | the descending rename loop is a shift by one, holes included, when the base file is full, and nothing otherwise |
| AuditLogs.AuditLog.AppendEntry | kc-admin-mcp/src/audit.rs:311-317 | one line is added to the base file and no other file changes |
| AuditLogs.AuditLog.Snapshot | kc-admin-mcp/src/audit.rs:225-240 | a snapshot is the newest part of the whole history, bounded by the limit and the ring size |
| AuditLogs.AuditLog.Checkpoint | kc-admin-mcp/src/audit.rs:252-297 | the base file becomes the ring and a non-empty one ends in the reported hash, rotated files stay, and the report goes to the checkpoint file |
| AuditLogs.RenamesShift | kc-admin-mcp/src/audit.rs:341-354 | the rename rounds, taken from the highest index to the lowest, add up to the shift |
| AuditConcurrency.RingIsWindowOfChain | kc-admin-mcp/src/audit.rs:186-213 | in every reachable state of every interleaving the ring is the newest window of one verified chain, up to at most one entry in flight |
| AuditConcurrency.EntriesAreRecorded | kc-admin-mcp/src/audit.rs:186-213 | in every reachable state each sealed entry is, but for its hash fields, what some call of record was given |
| AuditConcurrency.EveryRecordOnce | kc-admin-mcp/src/audit.rs:186-213 | conservation: when all calls are finished the history holds what they were given, each entry as often as it was given |
| AuditConcurrency.LinesFollowChain | kc-admin-mcp/src/audit.rs:186-213 | under every interleaving the lines appended to the log are the chain in its order, up to at most one line still to be written |
| AuditConcurrency.SnapshotsAreWindows | kc-admin-mcp/src/audit.rs:225-240 | under every interleaving a snapshot is the newest part, within the limit of its call and the ring size, of a prefix of the history that has at least what was in the ring when the call began |
| AuditConcurrency.CheckpointReports | kc-admin-mcp/src/audit.rs:252-272 | every checkpoint reports the hash of a history prefix that has at least what was in the ring when it began; exactly with a log path it also writes a window that is no shorter, and the two end alike if and only if nothing was pushed in between |
| AuditConcurrency.CheckpointCanLag | kc-admin-mcp/src/audit.rs:252-272 | a concrete schedule in which the window is newer than the reported hash |
| AuditConcurrency.LocksTakenInOrder | kc-admin-mcp/src/audit.rs:186-213 | a waiting thread owns only locks below the one it waits for |
| AuditConcurrency.SomeThreadMoves | kc-admin-mcp/src/audit.rs:186-213 | no deadlock: while a call is unfinished some thread can take a step |
| AuditConcurrency.CallsCanFinish | kc-admin-mcp/src/audit.rs:225-272 | from every reachable state all unfinished calls can be brought to their end |
| Sorting.NormalizeCanonical | kc-admin-mcp/src/tools/clients/scopes.rs:155-159 | sort and dedup give a strictly sorted list of the same members |
| Sorting.NormalizeOfSet | kc-admin-mcp/src/tools/clients/scopes.rs:155-159 | two lists normalise alike if and only if they have the same members |
| ScopePlan.AddPlanBridges | kc-admin-mcp/src/tools/clients/scopes.rs:161-184 | an add plan changes exactly what separates the bound set from its union with the request |
| ScopePlan.RemovePlanBridges | kc-admin-mcp/src/tools/clients/scopes.rs:186-210 | a remove plan changes exactly what separates the bound set from what is left without the request |
| ScopePlan.ReplacePlanBridges | kc-admin-mcp/src/tools/clients/scopes.rs:212-243 | a replace plan changes exactly the symmetric difference of bound and desired sets, each id once |
| ScopePlan.NoShorterWay | kc-admin-mcp/src/tools/clients/scopes.rs:1282-1313 | every sequence of bindings and unbindings between two sets is at least as long as their difference |
| ScopePlan.ToolConverges | kc-admin-mcp/src/tools/clients/scopes.rs:1282-1313 | each tool's requests reach its target, are as many as the ids to change, and no sequence is shorter |
| ScopePlan.CutShort | kc-admin-mcp/src/tools/clients/scopes.rs:1282-1313 | after a failure at any step the set lies between intersection and union, and the rest of the plan bridges to the target |
| ScopePlan.RerunResumes | kc-admin-mcp/src/tools/clients/scopes.rs:1282-1313 | a rerun after a cut sends exactly the requests that were not sent |
| ScopePlan.UndoRestores | kc-admin-mcp/src/tools/clients/scopes.rs:161-210 | removing what an add reports as added restores the set before it, and the other way round |
| ScopeTools.ScopeServer.ApplyMutation | kc-admin-mcp/src/tools/clients/scopes.rs:284-310 | one PUT or DELETE per live call, none in a dry run; success means the set changed |
| ScopeTools.ScopeServer.ExistingIds | kc-admin-mcp/src/tools/clients/scopes.rs:270-282 | the listed ids come out sorted and unique, whatever order the server uses |
| ScopeTools.ScopeServer.SendEach | kc-admin-mcp/src/tools/clients/scopes.rs:1284-1297 | the loop over one list of a plan sends a beginning of it and stops at the first failure; all but at most the last one sent took effect |
| ScopeTools.ScopeServer.RunTool | kc-admin-mcp/src/tools/clients/scopes.rs:1265-1320 | an add leaves the union, a remove the difference and a replace the request itself, with the unbindings sent before the bindings; otherwise a beginning of the plan is sent and applied but for at most the last request; a dry run changes and sends nothing |
| ScopeTools.ScopeServer.EnsureScope | kc-admin-mcp/src/tools/clients/scopes.rs:1098-1178 | ensure binds an unbound id as a default scope with one request and leaves a bound one alone; the opposite call unbinds it of both kinds; both sets and the requests are stated, and after a failure the call is still for the same bindings |
| ScopeTools.EnsureResumes | kc-admin-mcp/src/tools/clients/scopes.rs:1098-1178 | wherever a failed ensure call stops, a rerun is for the bindings of the first |
| ScopeTools.EnsureIdempotent | kc-admin-mcp/src/tools/clients/scopes.rs:1098-1178 | a second ensure finds nothing to do and reports no change |
| ScopeTools.DryRunShowsPlan | kc-admin-mcp/src/tools/clients/scopes.rs:375-427 | a dry run reports the same plan and the same change flag as the live run |
| ScopeTools.SummaryShows | kc-admin-mcp/src/tools/clients/scopes.rs:375-427 | the lists, flags and outcome word of every summary, in terms of what was bound and what was asked |
| ScopeTools.EnsureSummaryShows | kc-admin-mcp/src/tools/clients/scopes.rs:1108-1178 | the same for ensure |
| ScopeTools.PathSafeMeans | kc-admin-mcp/src/tools/validation.rs:88-100 | an id is refused exactly for a slash, a backslash or two dots in a row |
| ScopeTools.SecondRunChangesNothing | kc-admin-mcp/src/tools/clients/scopes.rs:375-427 | after a run the same tool has an empty plan and reports no change |
| ScopeLookup.LoadScopes | kc-admin-mcp/src/tools/clients.rs:954-1008 | the paging loop ends for every server behaviour, within a bounded number of requests, and fails at the first unanswered one |
| ScopeLookup.PagingExact | kc-admin-mcp/src/tools/clients.rs:954-1008 | for a list that parses, paging collects it once and in order if and only if it is shorter than 4294967300 |
| ScopeLookup.PagingWithUnparsable | kc-admin-mcp/src/tools/clients.rs:954-1008 | for every list: after a first short page paging loses nothing if and only if nothing behind that page parses; without one it appends the page at the saturated cursor, or fails when that is full too, and the exact condition for a lossless result |
| ScopeLookup.ParseOne | kc-admin-mcp/src/tools/clients.rs:978-990 | an item that parses is collected as it is, any other is dropped |
| ScopeLookup.UnparsableHidesLaterPages | kc-admin-mcp/src/tools/clients.rs:954-1008 | one unparsable item on the first page hides the whole second page |
| ScopeLookup.BuildLookup | kc-admin-mcp/src/tools/clients.rs:1008-1028 | the two maps hold the last scope by canonical id and the first by name |
| ScopeLookup.LoadClientScopeLookup | kc-admin-mcp/src/tools/clients.rs:949-1028 | every lookup through the maps is the scan of the collected list |
| ScopeLookup.LookupIsScan | kc-admin-mcp/src/tools/clients.rs:940-947 | resolving through the maps is a linear scan: canonical id first, then name |
| ScopeLookup.LastByIdMeans | kc-admin-mcp/src/tools/clients.rs:1008-1028 | of several scopes with one canonical id the last in the listing counts |
| ScopeLookup.FirstByNameMeans | kc-admin-mcp/src/tools/clients.rs:1008-1028 | of several scopes with an id and one name the first counts |
| ScopeLookup.NoneById | kc-admin-mcp/src/tools/clients.rs:1008-1028 | no scope is found by an id that none has |
| ScopeLookup.NoneByName | kc-admin-mcp/src/tools/clients.rs:1008-1028 | no scope is found by a name that none with an id has |
| ScopeLookup.PagedScanIsServerScan | kc-admin-mcp/src/tools/clients.rs:940-1028 | whenever paging succeeds on a list that parses, tokens resolve as on the server's own list |
| Resolution.ResolveScopeIds | kc-admin-mcp/src/tools/clients.rs:1210-1264 | every token of the four arguments is resolved or reported, those given as ids under a label of their own; both lists come out strictly sorted |
| Resolution.ReplaceByTokens | kc-admin-mcp/src/tools/clients/scopes.rs:1234-1313 | from names to bindings: a replace leaves bound exactly what its tokens mean on the server, with the fewest requests |
| Resolution.ClientIdResolvesExactly | kc-admin-mcp/src/tools/clients.rs:1137-1207 | a client id resolves exactly when it has one internal id; several are an error that lists each once |
| Resolution.GivenIdIsUsed | kc-admin-mcp/src/tools/clients.rs:1144-1154 | a given id is used in its canonical form, whatever the answer; with nothing given nothing is found |
| Resolution.AnswerOrderIrrelevant | kc-admin-mcp/src/tools/clients.rs:1182-1207 | order and repeats in the server's answer do not change the result |
| ClientRanking.RankingIsTopOfCandidates | kc-admin-mcp/src/tools/clients.rs:1093-1135 | the result is a sorted part of the positive-score candidates and nothing omitted ranks before it |
| ClientRanking.ScoreOrders | kc-admin-mcp/src/tools/clients.rs:1048-1091 | in any case of letters: exact matches score above all others, and exactly when a prefix match scores above a match inside |
| ClientRanking.TermNormalized | kc-admin-mcp/src/tools/clients.rs:1044-1046 | the case of the term and white space around it make no difference |
| ClientRanking.PrefixScoresAsInside | kc-admin-mcp/src/tools/clients.rs:1081-1083 | a prefix match that scores no higher than a match inside, because its id holds the term |
| ClientRanking.BeforeMeans | kc-admin-mcp/src/tools/clients.rs:1107-1126 | higher scores first, then the smaller client id, then the smaller id |
| Sorting.LexByFirstDifference | kc-admin-mcp/src/tools/clients.rs:1107-1126 | strings are ordered by their first difference |
| Text.LowerMeans | kc-admin-mcp/src/tools/clients.rs:1044-1070 | lower case changes exactly the ASCII letters A to Z |
| Text.TrimMeans | kc-admin-mcp/src/tools/clients.rs:1044-1046 | trimming takes white space from both ends, and all of it |
| SearchOrder.ResultIsRanked | kc-admin-mcp/src/tools/clients/core.rs:187-202 | an exact search ranks the merged clients whose id or client id is the query in any case, every other search all of them |
| ClientRanking.OrderShowsExactly | kc-admin-mcp/src/tools/clients.rs:1093-1135 | the result is the same for every order of the input if and only if no two different clients tie with fewer than `limit` candidates before them |
| ClientRanking.RankingIgnoresInputOrder | kc-admin-mcp/src/tools/clients.rs:1093-1135 | without two candidates under one client id and id, every order of the input gives the same result |
| SearchOrder.ServerOrderShowsExactly | kc-admin-mcp/src/tools/clients/core.rs:173-202 | merge, exact-match filter and ranking together: the result is the same for every order of the fetched clients if and only if no candidate whose best place over all orders is below `limit` has a rival, another fetched client with its id or its rank |
| SearchOrder.BestPlaceIsBest | kc-admin-mcp/src/tools/clients/core.rs:173-202 | no order of the fetched clients gives a candidate a better place than the found ones before it, the clients without id that beat it and one for each id under which all do |
| SearchOrder.FavourIsBest | kc-admin-mcp/src/tools/clients/core.rs:173-202 | fetched first, with those that beat it last, a candidate has that place |
| SearchOrder.IdentifiedNeverShows | kc-admin-mcp/src/tools/clients/core.rs:173-202 | with ids on all candidates and no id on two different clients the server's order does not show |
| SearchOrder.ServerOrderShows | kc-admin-mcp/src/tools/clients/core.rs:173-202 | two clients under one id, and two without ids, whose order decides the result |
| ClientRanking.Merge | kc-admin-mcp/src/tools/clients/core.rs:173-186 | fetched clients join in order unless their id is listed |
| ClientRanking.MergeKeepsIdsUnique | kc-admin-mcp/src/tools/clients/core.rs:173-186 | the merge keeps what was there, adds no client whose id is already listed, and drops no other |
| EdgeGuard.GuardMeaning | kc-admin-mcp/src/edge.rs:81-90 | the textual tests look for exactly an escaped dot, slash or backslash, a backslash and a dot segment; a path is accepted exactly without these and without a semicolon |
| EdgeGuard.DecodeCommutesWithSplit | kc-admin-mcp/src/edge.rs:81-90 | where no structure is hidden, decoding commutes with splitting at slashes |
| EdgeGuard.AcceptedSegmentsDecodeSafely | kc-admin-mcp/src/edge.rs:77-90 | an accepted path decodes to the decoded segments, none a dot segment, with no backslash |
| EdgeGuard.RemoveDotsUnchanged | kc-admin-mcp/src/edge.rs:81-90 | dot-segment removal leaves a path alone if and only if it has no dot segment |
| EdgeGuard.AcceptedPathsHaveNoDots | kc-admin-mcp/src/edge.rs:77-90 | dot-segment removal changes neither an accepted path nor its decoded form |
| GatewayRoutes.SegmentsAreParts | kc-admin-gateway/src/handlers.rs:910-915 | the segments of a path are its non-empty parts between slashes |
| GatewayRoutes.BuildUpstreamUrl | kc-admin-gateway/src/handlers.rs:883-907 | the upstream address is the base, the path and the query, or an error without a base |
| GatewayRoutes.UpstreamKeepsSegments | kc-admin-gateway/src/handlers.rs:883-915 | the forwarded path has the base's segments followed by exactly the segments that were classified |
| GatewayRoutes.UpstreamIsBaseAndPath | kc-admin-gateway/src/handlers.rs:893-899 | the address is the base, one slash and the path, whatever slashes stand between |
| GatewayRoutes.FindResourceIndex | kc-admin-gateway/src/handlers.rs:1155-1163 | before the index stand at most `admin` and `realms` with a name, from it on stands the classified tail, and there is no index exactly when that tail is empty |
| GatewayRoutes.ResourceTailOfRealm | kc-admin-gateway/src/handlers.rs:1150-1168 | below a realm the classified tail is what follows the realm's name |
| GatewayRoutes.LookupsOnlyWiden | kc-admin-gateway/src/handlers.rs:982-1035 | a shared lookup accepts its own family's read and write scopes and no other family's read scope |
| GatewayRoutes.OtherRoutesTakeOwnScope | kc-admin-gateway/src/handlers.rs:1036-1083 | every other route takes one scope of its own family, read or not as the method is, with the two stated exceptions |
| GatewayRoutes.EnforceScopes | kc-admin-gateway/src/auth.rs:50-60 | enforcement succeeds exactly when every scope is on the token and else names the first that is not |
| GatewayRoutes.SelectFindsCovered | kc-admin-gateway/src/handlers.rs:1085-1095 | selection picks a covered candidate as soon as there is one |
| GatewayRoutes.SelectTakesFirst | kc-admin-gateway/src/handlers.rs:1085-1095 | the first candidate on the token is selected, or the very first one when none is |
| GatewayRoutes.QueryParams | kc-admin-gateway/src/handlers.rs:1123-1132 | a query has the names before the first equals sign of its parts between ampersands, and no others |
| GatewayRoutes.AcceptedIffSomeCandidate | kc-admin-gateway/src/handlers.rs:1001-1102 | selection followed by enforcement succeeds if and only if some candidate is wholly on the token |
| GatewayRoutes.ExchangedScopesOnToken | kc-admin-gateway/src/handlers.rs:443-492 | the scopes sent to the exchange are a non-empty part of the token's |
| GatewayRoutes.MoreScopesKeepAcceptance | kc-admin-gateway/src/handlers.rs:1001-1102 | more scopes on the token never turn acceptance into refusal |
| GatewayRoutes.WritesNeedMoreThanRead | kc-admin-gateway/src/handlers.rs:1012-1082 | outside observability the scopes that let a changing method through are on the token and none of them ends in `:read` |
| GatewayProxy.HandleProxy | kc-admin-gateway/src/handlers.rs:319-522 | the decision order: a request is forwarded exactly when it passes every stage, and a refusal names the first stage that fails and, for scopes, the first acceptable one |
| GatewayProxy.ChangingRequestsAreGuarded | kc-admin-gateway/src/handlers.rs:319-522 | a production gateway lets a changing request through only for a listed caller or during a stated override, and never on read scopes alone |
| ScopeTable.RouteTable | kc-admin-gateway/src/handlers.rs:1001-1083 | below a realm every request but the helper lookups passes, for every token, exactly with the one scope of its family, spelled out for reading and changing |
| ScopeTable.WordFamilies | kc-admin-gateway/src/handlers.rs:1199-1219 | which first word belongs to which family, for every word |
| ScopeTable.RealmRoleTable | kc-admin-gateway/src/handlers.rs:982-988 | one role of a realm can be read with any of five scopes and no other |
| ScopeTable.ClientRoleTable | kc-admin-gateway/src/handlers.rs:991-992 | one role of a client, with any of three |
| ScopeTable.ClientTable | kc-admin-gateway/src/handlers.rs:989-990 | clients by client id, with any of three |
| ScopeTable.ClientScopeTable | kc-admin-gateway/src/handlers.rs:993-998 | the client scopes, with any of four |
| ScopeTable.RealmTable | kc-admin-gateway/src/handlers.rs:1199-1202 | the realm itself and the list of realms take the realm's scopes |
| ScopeTable.ServerTable | kc-admin-gateway/src/handlers.rs:1073-1082 | server information and metrics take one scope for every method |
| ScopeTable.NothingElsePasses | kc-admin-gateway/src/handlers.rs:933-938 | no path outside the realms, server information and metrics is let through |
| RequestUrls.WireOfParts | kc-admin-mcp/src/gateway.rs:108-122 | for arbitrary segments: the gateway gets those up to the first query or fragment, dot segments taken out, empty ones dropped, the rest encoded one for one |
| RequestUrls.PathThen | kc-admin-mcp/src/gateway.rs:108-122 | a written path ends at its first question mark or hash |
| RequestUrls.PathAndQuery | kc-admin-mcp/src/gateway.rs:108-122 | what follows the question mark, up to a hash, is sent as the query |
| RequestUrls.PathAlone | kc-admin-mcp/src/gateway.rs:108-122 | a path of visible characters without either is kept whole and has no query |
| WireRoutes.SameCandidates | kc-admin-gateway/src/handlers.rs:1012-1082 | percent-encoding changes no scope requirement |
| WireRoutes.AllowedExactly | kc-admin-gateway/src/handlers.rs:910-1102 | the gateway allows a request as written exactly when it allows the segments and the query before encoding |
| RoleTools.GatewayClient.ResolveId | kc-admin-mcp/src/tools/groups.rs:863-904 | an id in the arguments is used as it is; otherwise one lookup request decides, by the first listed item with the name |
| RoleTools.FirstNamedDecides | kc-admin-mcp/src/tools/groups.rs:896-903 | the first item with the name decides, even when it has no id and a later one has |
| RoleTools.UnnamedIsNotFound | kc-admin-mcp/src/tools/groups.rs:896-903 | a listing without an item of the name gives no id |
| RoleTools.GatewayClient.ResolveRoles | kc-admin-mcp/src/tools/groups.rs:906-962 | one request per role in order; incomplete roles are collected in order, or stop a composite tool |
| RoleTools.GatewayClient.RunRoleTool | kc-admin-mcp/src/tools/groups.rs:600-783 | effect: a finished add leaves mapped what was mapped and the roles found, a finished remove takes them away, at the one object and nowhere else; the run is complete exactly when the id resolves and every role is complete, and nothing changes before its last request |
| RoleTools.NamesAreMapped | kc-admin-mcp/src/tools/groups.rs:906-931 | with answers that bear the names asked for, the roles written are those of the given names |
| RoleTools.ChangesUndo | kc-admin-mcp/src/tools/groups.rs:600-696 | a remove after an add of unmapped roles restores every mapping, and an add after a remove of mapped ones |
| RoleTools.WriteSpelled | kc-admin-mcp/src/tools/groups.rs:634-696 | POST adds and DELETE removes, on the path of the object, letter by letter for each of the four tools |
| RoleTools.ReadsSpelled | kc-admin-mcp/src/tools/groups.rs:863-962 | the paths of the lookups and of the requests for roles, letter by letter |
| RoleTools.IdExactly | kc-admin-mcp/src/tools/groups.rs:863-904 | where the id comes from, and when the tool reports that there is none |
| CrossService.RoleUnderFirmRouted | kc-admin-mcp/src/tools/groups.rs:906-962 | under a realm that stays in the path, the request for one role passes exactly when its id and name meet their condition |
| CrossService.WriteUnderFirmRouted | kc-admin-mcp/src/tools/client_scopes.rs:808-820 | under a realm that stays in the path, the write passes exactly when the changed object and the client id meet their condition |
| CrossService.OffRealmRefused | kc-admin-gateway/src/handlers.rs:910-1082 | with nothing but the tool's own scope on the token, a realm that is cut off, is `..` or holds a semicolon makes the gateway refuse the write |
| CrossService.WriteWithoutRealmRouted | kc-admin-gateway/src/handlers.rs:910-1082 | a realm that is empty or a single dot drops out of the path; on the tool's own scope the write then passes exactly when the changed object is itself a word of the tool's family |
| CrossService.RoleWithoutRealmRouted | kc-admin-gateway/src/handlers.rs:910-1082 | the same for the request for a role: it passes exactly for the listed ids and names that turn it into another lookup |
| CrossService.WriteScopeIsEnough | kc-admin-mcp/src/tools/client_scopes.rs:757-965 | under these conditions the tool's own write scope passes the gateway on every request of the run, whatever else the token has |
| CrossService.GatesAgree | kc-admin-mcp/src/tools/groups.rs:600-855 | with the default scope map every token that passes the tool's own scope gate passes the gateway on every request of the run |
| CrossService.RunPassesExactly | kc-admin-gateway/src/handlers.rs:910-1082 | for all arguments: with that scope alone the whole run passes if and only if the realm and each other argument meets its condition, for a realm that stays in the path and for one that drops out |
| CrossService.OrdinaryNamesPass | kc-admin-mcp/src/tools/roles.rs:466-593 | names of visible characters other than `?`, `#` and `;` that are no dot segment meet every condition |
| CrossService.ArgumentsThatMiss | kc-admin-mcp/src/tools/roles.rs:491-519 | for each kind of argument one value that makes the gateway refuse the run |
| CrossService.ArgumentsThatSlip | kc-admin-mcp/src/tools/roles.rs:510-519 | three values that pass and what then arrives: a composite name that leaves a write to the collection of roles, a client id that makes a client's role one of the realm, a realm that the family's word replaces |
| BreakGlass.GatewayAdmitsExactly | kc-admin-gateway/src/main.rs:173-225 | a production gateway admits exactly the listed callers or, with no list, everyone until start plus a positive TTL given with a reason |
| BreakGlass.GatewayStartsExactly | kc-admin-gateway/src/main.rs:173-225 | for all settings: the stored deadline, or the first check that fails |
| BreakGlass.McpStartsExactly | kc-admin-mcp/src/config.rs:552-568 | the same for the MCP server |
| BreakGlass.RefusalsExactly | kc-admin-mcp/src/auth.rs:227-293 | for every caller: admitted, expired or refused by which list, in either service |
| BreakGlass.DecimalRoundTrip | kc-admin-gateway/src/main.rs:190-200 | the decimal text of a number is read as that number, with or without a plus sign, below 2^64 and not from there on |
| BreakGlass.OnlyDigitsParse | kc-admin-gateway/src/main.rs:190-200 | nothing but digits behind at most one plus sign is a number |
| BreakGlass.McpAdmitsExactly | kc-admin-mcp/src/auth.rs:227-293 | the same for the MCP server and its two lists |
| BreakGlass.ExpiryIsFinal | kc-admin-gateway/src/handlers.rs:918-923 | once a request is refused for expiry every later one is, in either service |
| BreakGlass.OpenGatewayCloses | kc-admin-gateway/src/handlers.rs:320-375 | a run of an open production gateway is a stretch of admitted requests and then a stretch of refused ones, cut at the deadline |
| BreakGlass.OpenMcpCloses | kc-admin-mcp/src/config.rs:552-568 | the same for the MCP server |
| BreakGlass.UnguardedOutsideProduction | kc-admin-gateway/src/main.rs:209-216 | without a list the gateway has a deadline exactly when the override is on; without either it runs only outside production and admits everyone |
| RoleGate.ClassifyScopes | kc-admin-mcp/src/tools/shared.rs:168-214 | the write gate opens exactly for a scope configured for writing in some family, and no gate exactly when none is configured at all |
| RoleGate.ScopesPassExactly | kc-admin-mcp/src/tools/shared.rs:49-69 | the scope gate passes exactly when nothing is missing, and its error lists exactly what is |
| RoleGate.RolesPassExactly | kc-admin-mcp/src/tools/shared.rs:81-133 | for which roles the role gate is open: any for unknown requirements or without configured roles, write roles always, read roles when nothing is required for writing; and which refusal comes otherwise |
| RoleGate.AdmitsExactly | kc-admin-mcp/src/tools/shared.rs:49-133 | both gates together: the scopes are looked at first and the refusal lists what is missing |
| RoleGate.RolesAntitone | kc-admin-mcp/src/tools/shared.rs:81-133 | roles that pass for a requirement pass for every part of it |
| RoleGate.AdmissionMonotone | kc-admin-mcp/src/tools/shared.rs:49-133 | both gates together: fewer requirements, more scopes and more roles never lose access |
| RoleGate.CollectScopes | kc-admin-mcp/src/config.rs:1040-1065 | the published list has exactly the scopes configured for reading or writing, each once and in order |
| RoleGate.PublishedIsGated | kc-admin-mcp/src/config.rs:1040-1065 | what is published is exactly what the two gates know |
| RoleGate.UngatedExactly | kc-admin-mcp/src/tools/shared.rs:168-214 | a requirement is ungated if and only if it shares nothing with the published scopes |
| RoleGate.DefaultKeepsNames | kc-admin-mcp/src/config.rs:985-1027 | in the default scope map the read scopes and no others end in `:read` |
| RoleGate.DefaultMapTexts | kc-admin-mcp/src/config.rs:985-1027 | the default map, scope by scope |
| RoleGate.GateByName | kc-admin-mcp/src/tools/shared.rs:168-214 | under that naming a published scope opens the write gate exactly when it does not end in `:read` |
| MetricsRegistry.CounterVec.Increment | kc-admin-mcp/src/metrics.rs:240-245 | one counter grows, wrapping at 2^64, and no other changes |
| MetricsRegistry.HistogramVec.Record | kc-admin-mcp/src/metrics.rs:280-299 | the bucket search finds the first bound that holds the value, else the last bucket |
| MetricsRegistry.DefaultBuckets | kc-admin-mcp/src/metrics.rs:123-125 | which of the ten buckets each duration falls into |
| MetricsRegistry.Metrics.RecordToolCall | kc-admin-mcp/src/metrics.rs:168-173 | one call adds one to the counter with its two labels and touches the one histogram with its tool label; the registry stays the one its call history gives |
| MetricsRegistry.HistogramsAreExact | kc-admin-mcp/src/metrics.rs:280-299 | count, sum and every bucket are those of the recorded durations, modulo 2^64, for every run |
| MetricsRegistry.CountersAreExact | kc-admin-mcp/src/metrics.rs:240-245 | a counter exists exactly when its tool and status occurred, and counts them modulo 2^64 |
| MetricsRegistry.CallsMatchHistogram | kc-admin-mcp/src/metrics.rs:168-173 | within u64 a tool's counters over all statuses add up to its histogram's count |
| MetricsRegistry.BucketsMatchCount | kc-admin-mcp/src/metrics.rs:280-299 | within u64 the buckets add up to the count and the sum is the total of the durations |
| ConfigEdit.ConfigObject.SetList | kc-admin-mcp/src/tools/realms.rs:541-553 | the list goes to the first alias present, else to the first alias |
| ConfigEdit.ListRoundTrip | kc-admin-mcp/src/tools/realms.rs:541-618 | reading a list after setting it gives what was set, whichever aliases were there |
| ConfigEdit.BoolRoundTrip | kc-admin-mcp/src/tools/realms.rs:555-645 | reading a flag after setting it gives what was set |
| ConfigEdit.OneKeyChanges | kc-admin-mcp/src/tools/realms.rs:541-553 | exactly one key changes, and no second alias appears |
| ConfigEdit.OtherKeysKept | kc-admin-mcp/src/tools/realms.rs:541-645 | setting under one alias list leaves what is read under a disjoint one |
| ConfigEdit.MatchComponents | kc-admin-mcp/src/tools/realms.rs:576-601 | the indices found are exactly those of the matching components, ascending |
| ConfigEdit.MatchesExactly | kc-admin-mcp/src/tools/realms.rs:564-601 | a component matches by every id, name and provider given; the default provider is wanted only when none of the three is |
| ConfigEdit.UpdatePolicy | kc-admin-mcp/src/tools/realms/registration.rs:311-391 | the call refuses nothing asked, no match, several matches, a configuration that is no object and a missing id, and otherwise puts the edited only match |
| ConfigEdit.PutKeepsId | kc-admin-mcp/src/tools/realms/registration.rs:376-395 | a component is put under its own unchanged id |
| ConfigEdit.EditReadsBack | kc-admin-mcp/src/tools/realms/registration.rs:352-374 | after the edit both settings read as asked, and an absent flag leaves its setting |
| ConfigEdit.EditWritesKeys | kc-admin-mcp/src/tools/realms/registration.rs:352-374 | under which key each setting is written, and as what |
| ConfigEdit.ReadersMean | kc-admin-mcp/src/tools/realms.rs:603-645 | how every kind of JSON value is read as a list and as a flag |
| ConfigEdit.EditTouchesOnlySettings | kc-admin-mcp/src/tools/realms/registration.rs:352-374 | nothing else in the component or its configuration changes |
| ConfigEdit.FlagAloneClearsScopes | kc-admin-mcp/src/tools/realms/registration.rs:361-365 | a call for the flag alone keeps the allowed scopes if and only if there were none |
| ConfigEdit.FlagAloneExample | kc-admin-mcp/src/tools/realms/registration.rs:361-365 | a configuration that loses its one allowed scope |
| BulkUpdate.BuildBody | kc-admin-mcp/src/tools/clients/core.rs:929-966 | field by field, the body holds exactly what an entry gives |
| BulkUpdate.BulkClient.UpdateOne | kc-admin-mcp/src/tools/clients/core.rs:886-996 | what becomes of an entry in every case, under which name an error is reported, and its PUT exactly when a live run gets that far |
| BulkUpdate.BulkClient.UpdateAll | kc-admin-mcp/src/tools/clients/core.rs:859-1005 | the three lists are the outcomes of the entries, each in input order; a dry run sends nothing |
| BulkUpdate.SummaryPartitions | kc-admin-mcp/src/tools/clients/core.rs:886-1005 | every entry has one place in the list of its outcome, entries of one list keep their order, and there are no other places |
| BulkUpdate.DryRunListsPuts | kc-admin-mcp/src/tools/clients/core.rs:969-997 | a dry run lists in order exactly the clients a live run sends a PUT for |
| BulkUpdate.FaultlessRunMatchesDryRun | kc-admin-mcp/src/tools/clients/core.rs:969-997 | a live run whose PUTs succeed reports what the dry run reports |
| BulkUpdate.FailuresOnlyMoveEntries | kc-admin-mcp/src/tools/clients/core.rs:969-997 | a failed PUT moves its own entry from updated to errors and no other |
| BulkUpdate.PruneClient.Prune | kc-admin-mcp/src/tools/clients/core.rs:1009-1193 | the refusals in order; without being told it deletes nothing and sends nothing; a live run acts on the first matches in order, stops at the first failure, and deletes or disables exactly those clients |
| BulkUpdate.MatchedExactly | kc-admin-mcp/src/tools/clients/core.rs:1117-1160 | an id is matched exactly when a client with it has a client id, is not excluded and meets every filter |
| BulkUpdate.MatchedConcat | kc-admin-mcp/src/tools/clients/core.rs:1117-1160 | matches come in the order of the listing, one for each selected client |
| BulkUpdate.BlankSearchSelectsAll | kc-admin-mcp/src/tools/clients/core.rs:1128-1134 | a search for one blank passes as a filter and selects every client with a client id |

## Left out

- AuditFiles.MixedRunKeepsPieces: calls do not overlap; the code does not guard the checkpoint's write of the base file against a record, so file contents under overlap carry no claim.
- AuditLogs.AuditLog.Record: failures of renames and writes are ignored by the code and do not occur here; one process lifetime, from no files.
- AuditLogs.AuditLog.Checkpoint: of the checkpoint file the time and the hash are modelled; its version text and the configured paths are constants.
- AuditEntries.EndHashDeterminesLedger: the digest is assumed injective; SHA-256 and the JSON form it is taken over are not modelled.
- ScopeTools.ScopeServer.RunTool: requests are bindings and unbindings of a kind, without their paths; authentication, the gates, the confirm flag of the replace tools, and finding the client come before this point; id resolution is `Resolution`.
- Resolution.ClientIdResolvesExactly: input validation and transport errors before the answer are left out.
- SearchOrder.ServerOrderShowsExactly: the list found by a UUID and the list the server answers with are parameters; checks of the arguments come before them.
- GatewayProxy.HandleProxy: token introspection, issuer and audience checks, headers and the upstream call are outside the model; the exchange is one bit.
- RequestUrls.WireOfParts: segments with a slash, a backslash or a percent sign are excluded; percent-encoding is any encoding that leaves a character alone or puts a percent sign in front.
- CrossService.RunPassesExactly: the arguments hold no slash, backslash or percent sign.
- BreakGlass.GatewayAdmitsExactly: the other checks of startup validation do not bear on the allowlists and are left out.
- MetricsRegistry.CallsMatchHistogram: calls do not overlap; a snapshot between the two locks of one call can see the counter without the histogram. A debug build would stop at an overflow instead of wrapping.
- BulkUpdate.DryRunListsPuts: looking a client up gives the same answer in a dry run and a live run.
- BulkUpdate.PruneClient.Prune: the listing's answer, case folding and the regular expression engine are parameters.
- HTTP servers and clients, TLS, JWKS, secret handling and the tool router: input and output.
- The remaining list, get, create and delete tools, the startup admission checks and provenance: sequences of independent steps without state between them.
- Agreement of the two services for tools other than the listed ones: they name different scopes for several routes.
