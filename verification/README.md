# Verified model of the panel and its agent

The repository is a control panel for proxy nodes (Go) and an agent that runs on each node.
This project models the parts of it that hold algorithms with state, and proves what they
promise, over every run and every interleaving where that is the point.

| module | models |
|---|---|
| `Metering` | billing of WireGuard customers from kernel counters: the cursor state machine, one frame of peers, the batch write |
| `HubRuns` | whole runs of the hub over many clients, and what they are for each of them |
| `SiteKeys`, `SiteFilter` | per-user site filters compiled into one first-match rule list, for xray and sing-box |
| `Chain` | chain entries: the relay path, the outbounds of the entry machine, the user lists of the landing machines |
| `WgSlots` | interface, fwmark and route table of every WireGuard node on a machine, and rule priorities |
| `WgNets` | network overlap, the next free network, client addresses |
| `SyncLoop` | how a database change reaches an agent: kicks, the sync loop, pushes and retries |
| `Rpc` | calls over the agent connection, the replies to them, and the online mark |
| `CoreApply` | how the agent takes a config into use: concurrent applies, rollback, the watchdog |
| `Delivery` | `SyncLoop` and `CoreApply` joined: from a kick in the panel to the config the agent holds |
| `Collect` | the agent's two-phase counter collection and the merging of sources |
| `ProtoStats` | the protobuf and gRPC decoder for core counters |
| `Calendar` | month-end clamping, billing cycles, resets |
| `Cards` | drag-and-drop order of cards, on the server and in the browser |
| `ShareLink` | printing and parsing of SS2022 share links |

`Options` and `Arithmetic` hold what several of them use.

Code that changes state step by step is modelled as methods with loops and as classes, each
proved against functions or predicates on values; the lemmas are about those. Protocols are
state machines whose steps are the atomic sections of the code, in any interleaving.
Outcomes of the outside world (a write, a process start, a network reply, a random secret)
are parameters.

## Where the code and its own words differ

* `wgPolicyPriorities` (internal/corecfg/wireguard.go:782-789) is said to give each tunnel
  priorities "no other slot uses". `WgSlots.PrioritiesDisjointIff` gives the exact condition: the slot indices
  differ, and not by 25. `WgSlots.TypedClaimSharesPriorities` is a pair of accepted nodes that share all six.
  Where all claims come from the allocator and there are at most 20 nodes it does hold
  (`WgSlots.CompactStays`, `WgSlots.CompactPrioritiesDisjoint`).
* A lower kernel reading is confirmed as a reset only by a second one that is not above it in
  either direction (internal/server/wgacct.go:57). `Metering.ConfirmedIffRepeats` and
  `Metering.ConfirmedExactly` say from the readings alone when that happens, the first time and
  every time. `Metering.LostIffClimbs`: whatever the readings do, bytes are lost exactly when the
  counter rises from below its mark, the highest reading since the last confirmation; a confirmation
  by itself costs nothing. Traffic that grows with every frame is one run that loses them
  (`Metering.GrowthDelaysConfirmation`, `Metering.ResetUnderGrowthIsLost`).
* Two peers of one frame that resolve to one client are both judged against one snapshot.
  `Metering.SettledByOneIff`: account and cursor are settled as one peer demands exactly when none of
  its other peers writes and the last of them that saves a cursor read the same. Two inputs fail it:
  one where both write (`Metering.SharedSnapshotDoubles`), and one where a silent peer takes the cursor
  back, so that the next reading is billed again (`Metering.SilentPeerTakesCursorBack`).
* Samples under the email of a client whose peer was missing from the frame are booked, and the
  next peer reading books the same bytes again, since the cursor did not move.
  `Metering.AccountIsReadingAndSurplus` gives the exact amount over all frames, samples, failures and
  restarts of a kernel session; a restart takes it back as far as the counter has grown past it
  (`Metering.SampledIsBilledTwice`, `Metering.RestartTakesBack`).
* Taken by itself, the collector cannot bill twice when the stats query falls back to clash
  (`Collect.HandoverToClash`); on the way back it bills exactly what clash billed a second time
  (`Collect.HandoverFromClashIff`, with the run `Collect.HandoverFromClashDoubles`). This agent does
  not take the way back: it removes `v2ray_api` from a config before storing it
  (internal/agent/cores.go:253-255, internal/agent/singboxcfg.go:10-36), and the query looks for
  its address in what is stored (internal/agent/stats.go:280-285), so it never gets an answer.
* An apply that a newer one has overtaken is answered yes although its config was never looked at
  (internal/agent/cores.go:158-161, internal/agent/agent.go:474-482). `CoreApply.YesMeansStoredIff`
  says what a yes is worth.
* A rollback that cannot write the old config leaves a file that the watchdog then starts; asking
  for the config in use again is answered with success (`CoreApply.TornRollbackSticks`).
  `CoreApply.RightUnlessTorn` says over all runs when file and process are right.
* A comment in internal/server/hub.go:191-199 says the stored revision changes only after a
  successful apply. `pushServer` also stores it when the agent is offline
  (internal/server/sync.go:30-33).
* Not every month has its reset. `Calendar.MonthHasResetIff` gives the exact condition, and there
  are two ways to miss it: a reset stamped with the time of the write, not of the tick that
  decided it, over the end of a month (`Calendar.LateStampSkipsMonth`), and a cycle started by hand
  earlier in the month, for a new user or a package just bound (`Calendar.EarlyStartSkipsMonth`).
* The online mark in the database is written after the lock is released
  (internal/server/hub.go:210-223), and not at all after a backup that fails to import
  (internal/server/handlers_backup.go:201-206). `Rpc.MarkRightIff` says from the events when it is
  right. Three runs leave it wrong with nothing under way: a quick reconnect stays marked offline
  (`Rpc.LateOfflineSticks`), a replaced connection that writes late leaves nobody marked online
  (`Rpc.LateOnlineSticks`), and so does the failed import (`Rpc.FailedImportSticks`).
* The agent starts a goroutine for each message (internal/agent/agent.go:177-201), so a message whose
  try timed out may enter `Apply` after a newer one. `Delivery.NewestHeldIff` says when the agent
  ends with the newest config, `Delivery.KickReachesAgent` that it does while no try is given up after
  it arrived, and `Delivery.LateTryWins` is a run that ends with the older one although the newer was
  acknowledged.
* A host stored with its own brackets comes back from a share link without them
  (`ShareLink.SS2022RoundTrip`).

## Model

| member | source | states |
|---|---|---|
| Metering.BillBytes | internal/server/hub.go:526-545 | which samples are refused, and that a billed count is the exact floor of bytes times rate, never below the bytes at a rate of 1 or more |
| Metering.NeverOverbills | internal/server/wgacct.go:31-78 | over every run of frames, lost frames, failed writes, refused samples, email samples and panel restarts, stored raw bytes plus what lies above the cursor never exceed the true traffic plus what was sampled, in both directions |
| Metering.PeerBillingNeverOver | internal/server/wgacct.go:31-78 | a client billed from its peer alone is never charged for more than the true traffic |
| Metering.SmoothRunInStep | internal/server/wgacct.go:173-259 | in an unbroken kernel session account and cursor are what the events alone say, whatever fails, restarts or is sampled in between |
| Metering.AccountIsReadingAndSurplus | internal/server/hub.go:547-555 | over frames, samples, failures and restarts of a session in any order, the account after a successful frame is the reading plus the surplus that the events leave, hence the reading exactly when that is nothing |
| Metering.SessionBilledExactly | internal/server/wgacct.go:173-259 | so without samples the stored total after every successful frame is the kernel reading, despite failed writes, failed lookups, lost frames and restarts before |
| Metering.SampledIsBilledTwice | internal/server/hub.go:547-555 | while the cursor is never lost and samples come beside it, the surplus is everything sampled, to the byte |
| Metering.RestartTakesBack | internal/server/wgacct.go:14-38 | the first successful frame after a restart leaves the larger of account and reading, in each direction |
| Metering.CursorLedger | internal/server/wgacct.go:41-78 | the cursor goes down exactly on a confirmed reset, for free; otherwise every byte it moves up is billed, and only those |
| Metering.HighWaterMark | internal/server/wgacct.go:41-78 | until a reset is confirmed the bill is exactly the rise of the highest reading above the cursor |
| Metering.IsolatedDip | internal/server/wgacct.go:52-72 | one isolated low reading neither loses nor doubles a byte |
| Metering.ConfirmedIffRepeats | internal/server/wgacct.go:52-72 | from the readings alone: some reset is confirmed exactly when somewhere two readings below the peak follow each other and the second is no larger in either direction |
| Metering.ConfirmedExactly | internal/server/wgacct.go:41-78 | over all readings, the cursor is the mark, and every reading confirms a reset exactly when it and the one before are below the mark, that one confirmed nothing, and it is no larger |
| Metering.LostIffClimbs | internal/server/wgacct.go:41-78 | over all readings, confirmed resets included, the bill falls short of what the readings rise by exactly when some reading rises from below the mark, in each direction, and never exceeds it |
| Metering.GrowthDelaysConfirmation | internal/server/wgacct.go:56-62 | so while readings grow with every frame no reset is confirmed |
| Metering.ResetUnderGrowthIsLost | internal/server/wgacct.go:56-72 | so a reset followed by steady growth is billed only above the old cursor |
| Metering.BooksEveryRuling | internal/server/wgacct.go:199-259 | whichever clients its peers resolve to, a booked frame raises each client's total by the sum of all that its peers write |
| Metering.SettledByOneIff | internal/server/wgacct.go:159-259 | hence a client is settled by one of its peers, account and cursor, exactly when its other peers write nothing and the last of its peers that saves a cursor has the same reading |
| Metering.SharedSnapshotDoubles | internal/server/wgacct.go:159-187 | an input where two peers of one client bill the same bytes twice |
| Metering.SilentPeerTakesCursorBack | internal/server/wgacct.go:252-259 | an input where the other peer writes nothing, its saved cursor wins, and the next reading bills 30 bytes again |
| Metering.Touched | internal/server/wgacct.go:199-259 | the items and saves of a frame settle each of its clients exactly as its own reading demands |
| Metering.Untouched | internal/server/wgacct.go:199-259 | a client outside the frame keeps cursor and account |
| Metering.FrameSettled | internal/server/wgacct.go:199-259 | a batch that was booked and cursors that were saved together settle every client of the frame |
| Metering.Hub.AddTrafficBatch | internal/db/queries.go:430-482 | all items are booked on account and quota, or, when any statement or the commit fails, none |
| Metering.Hub.SaveCursors | internal/server/wgacct.go:252-259 | the last save of a client is its cursor |
| Metering.Hub.Snapshot | internal/server/wgacct.go:159-167 | the frame is judged against the cursors as they stood before it |
| Metering.Hub.JudgeFrame | internal/server/wgacct.go:169-245 | the items and saves are exactly those the rulings of the frame's peers call for |
| Metering.Hub.ApplyPeers | internal/server/wgacct.go:111-267 | a whole frame: each client is settled by its own ruling if the batch commits, nothing changes if it fails, and nobody else is touched |
| Metering.ShieldedGetsNothing | internal/server/hub.go:624-628 | samples under the names of clients billed from a peer add nothing to them |
| Metering.PeersAreShielded | internal/server/hub.go:624-628 | every client with a peer in the frame is shielded, because whichever query asks, its rows give its own email and a WireGuard inbound |
| Metering.Hub.ApplySamples | internal/server/hub.go:598-673 | exactly the samples of known clients on this machine that are not skipped, not relays and within limits are booked, all or none |
| Metering.Hub.ConsumeStats | internal/server/hub.go:547-555 | over peers and samples of one frame together no byte is counted twice: where rows agree, a client with a peer is settled by it alone, and every other client gets its samples and keeps its cursor, whichever write fails |
| Metering.Hub.Restart | internal/server/wgacct.go:14-22 | a restart forgets cursors and keeps accounts |
| HubRuns.HubIsItsClients | internal/server/hub.go:547-555 | over every run of frames, lost frames and restarts with one peer for each client, a client's cursor and account are those of its own events taken alone |
| HubRuns.HubNeverOverbills | internal/server/wgacct.go:111-267 | so over every run of the hub no client is stored more than its true traffic and its samples |
| HubRuns.HubBillsExactly | internal/server/wgacct.go:111-267 | and after a successful frame of an unbroken session a client's total is its reading and its surplus, the reading alone without samples, whatever other clients do |
| SiteKeys.KeyInjective | internal/corecfg/sitedeny.go:242-248 | two filters with the same group key hold the same categories and the same sites |
| SiteKeys.EmailInjective | internal/db/queries.go:1803-1805 | a client email determines user and inbound |
| SiteFilter.ResolveSiteDeny | internal/corecfg/sitedeny.go:427-469 | the lists hold exactly the patterns the filter stands for, each once, with the health check host and the resolvers for allow-only |
| SiteFilter.CollectSiteDenyGroups | internal/corecfg/sitedeny.go:539-597 | every group holds only users of its own filter, and every user with a deny filter is in one |
| SiteFilter.CollectSiteAllowGroups | internal/corecfg/sitedeny.go:599-670 | the same for allow-only users keyed by their outbound, and the final block group holds exactly those users |
| SiteFilter.SameKeySamePatterns | internal/corecfg/sitedeny.go:560-575 | users filed under one key are filtered by the same patterns |
| SiteFilter.RulesForGroups | internal/corecfg/sitedeny.go:672-702 | the rules appended in the loop are those of the groups in order |
| SiteFilter.GroupRulesHit | internal/corecfg/sitedeny.go:672-734 | the rules of a list of groups catch a session exactly when one of the groups does |
| SiteFilter.GroupsDecide | internal/corecfg/sitedeny.go:539-670 | with unique users, crossing tags and users in a group affects no other client: the first matching rule of a client's groups decides exactly by its own filter |
| SiteFilter.FiltersDecide | internal/corecfg/xray.go:105-112 | deny, then allow-pass, then allow-block: a client gets block or its own outbound as its policy says |
| SiteFilter.FiltersIgnore | internal/corecfg/xray.go:105-112 | sessions of users without a filter pass all filter rules untouched |
| SiteFilter.TailDecides | internal/corecfg/xray.go:24-103 | after the filters a client reaches its base outbound: chain, its own marked outbound, or direct |
| SiteFilter.ListingFaithful | internal/corecfg/xray.go:105-112 | the whole rule list gives each client and destination exactly its policy |
| SiteFilter.BuildXray | internal/corecfg/xray.go:10-118 | for every set of inbounds, clients and filters the generated xray rules are faithful to the policies, and it fails or is empty exactly when an inbound cannot be built or none is needed |
| SiteFilter.BuildSingbox | internal/corecfg/singbox.go:11-105 | the same for sing-box |
| SiteFilter.SniffFirst | internal/corecfg/singbox.go:96-105 | the sniff action in front does not end the search, so the decision is unchanged |
| SiteFilter.ProvisionedUsersAreUnique | internal/corecfg/client.go:78-141 | clients as they are provisioned have pairwise different routing names |
| Chain.HopRoundTrip | internal/corecfg/hops.go:92-159 | a valid hop read back from its stored form is the same hop |
| Chain.CompleteIsReady | internal/corecfg/profiles.go:544-597 | a completed credential has what the landing's protocol needs, and completing it again changes nothing |
| Chain.RelayHop | internal/corecfg/hops.go:196-229 | one hop is accepted exactly when it is allowed after the hops before it |
| Chain.ApplyHopRelays | internal/corecfg/hops.go:176-233 | the hops are accepted exactly when there are at most four, each valid, each panel node existing, direct, able to land, not an end of the path and not repeated; each is stored with its credential completed |
| Chain.PrepareEntry | internal/corecfg/profiles.go:484-532 | saving an entry succeeds exactly when hops and exit are allowed, and leaves it prepared |
| Chain.ChainPath | internal/corecfg/hops.go:298-337 | a path exists exactly when there are at most five steps and every step has a target; it lists hops, then the exit |
| Chain.NameInjective | internal/corecfg/hops.go:25-27 | tags and relay names determine entry and step |
| Chain.PathIsSimple | internal/corecfg/hops.go:176-233 | a saved entry's path has at most five steps with distinct tags, repeats no panel node, avoids the entry, and carries a usable credential for every node on it |
| Chain.PreparedHasPath | internal/corecfg/hops.go:298-355 | a saved entry always has a path |
| Chain.Dial | internal/corecfg/singbox.go:273-295 | every step dials through the one before it, the first directly |
| Chain.ChainOutbounds | internal/corecfg/xray.go:386-408 | outbounds exist exactly when there is a path and every step can be dialled; they are linked along the path, and the returned tag is the entry's own |
| Chain.WalkVisitsPath | internal/corecfg/xray.go:369-408 | in any config with distinct tags that holds the chain, dialing from any of its steps passes the steps before it in reverse and ends |
| Chain.BackAt | internal/corecfg/singbox.go:273-295 | that walk has one tag for each step, in reverse order |
| Chain.TagsOfEntriesDiffer | internal/corecfg/hops.go:25-27 | outbound tags of different entries never meet |
| Chain.LinkedTagsDistinct | internal/corecfg/xray.go:369-408 | the outbounds of one entry have distinct tags |
| Chain.ChainIsDialled | internal/corecfg/xray.go:369-408 | so dialing from the entry's tag passes its whole path in reverse, with nothing assumed of the tags |
| Chain.TagOfInjective | internal/corecfg/speed.go:45-47 | tags of direct, block, marked and chain outbounds never meet |
| Chain.ConfigOutbounds | internal/corecfg/xray.go:10-103 | over all inbounds of a machine: there is a config exactly when every chain entry can be dialled, all its outbound tags are distinct, and dialing from any entry's tag passes that entry's path in reverse |
| Chain.RelaysTo | internal/corecfg/hops.go:268-288 | in whatever order entries are visited, exactly the credentials of enabled entries that name the landing are announced |
| Chain.LandingUsers | internal/corecfg/xray.go:236-259 | a landing lists its own clients, exactly one user for each usable relay announced to it, and a SOCKS5 placeholder |
| Chain.PathIsAnnounced | internal/corecfg/hops.go:268-288 | every panel node on an enabled entry's path is told that entry's credential |
| Chain.CredentialsAgree | internal/corecfg/xray.go:577-677 | the login built for the entry machine is among the users built for the landing machine, for all landing protocols and both cores |
| Chain.ListedIffReady | internal/corecfg/singbox.go:219-251 | a relay gets a user exactly when it carries what the protocol asks for |
| Chain.SavedEntryIsServed | internal/corecfg/profiles.go:484-597 | from saving to both configs: on every panel node of a saved, enabled entry's path the login is accepted |
| WgSlots.ClaimPass | internal/corecfg/wireguard.go:592-609 | which claims stand: valid, and in no conflict with a standing claim before |
| WgSlots.Alloc | internal/corecfg/wireguard.go:610-627 | the next candidate whose name, mark and table nobody has, or none below 64 |
| WgSlots.NextSlot | internal/corecfg/wireguard.go:610-632 | with fewer than 64 candidates blocked or given there is always a next one |
| WgSlots.GivePass | internal/corecfg/wireguard.go:628-636 | standing claims stay, every other node gets the least candidate left |
| WgSlots.Passed | internal/corecfg/wireguard.go:610-627 | each standing claim uses up at most three candidates |
| WgSlots.AssignSlots | internal/corecfg/wireguard.go:573-652 | fails exactly above 20 nodes; otherwise the settings of every node become the assignment the rules prescribe |
| WgSlots.AssignedIsSettled | internal/corecfg/wireguard.go:569-652 | interface names, marks and tables come out valid and pairwise distinct |
| WgSlots.SettledPrefixUnmoved | internal/corecfg/wireguard.go:569-652 | adding nodes with larger ids moves no existing slot |
| WgSlots.RemovalKeepsOthers | internal/corecfg/wireguard.go:569-652 | removing nodes moves no other slot |
| WgSlots.Idempotent | internal/corecfg/wireguard.go:569-652 | assigning again changes nothing |
| WgSlots.AssignedUnique | internal/corecfg/wireguard.go:569-652 | the rules leave exactly one assignment |
| WgSlots.SortedInOrder | internal/corecfg/wireguard.go:577-583 | nodes are taken by id, then port |
| WgSlots.PrioritiesDisjointIff | internal/corecfg/wireguard.go:782-800 | two tunnels share no rule priority exactly when their slot indices differ, and not by 25 |
| WgSlots.TypedClaimSharesPriorities | internal/corecfg/wireguard.go:782-800 | an accepted pair of nodes that shares every priority |
| WgSlots.CompactStays | internal/corecfg/wireguard.go:573-652 | where all standing claims came from the allocator, all slots stay below 20 whatever nodes come and go |
| WgSlots.CompactPrioritiesDisjoint | internal/corecfg/wireguard.go:782-800 | there no two tunnels share a priority |
| WgNets.MaskClears | internal/corecfg/wireguard.go:263-276 | comparing under a prefix mask, bit by bit, compares everything but the low bits |
| WgNets.InBlock | internal/corecfg/wireguard.go:263-276 | containment means lying in one aligned block, also for an unmasked network address |
| WgNets.OverlapIffShared | internal/corecfg/wireguard.go:263-276 | the two-address test is true exactly when the networks share an address |
| WgNets.OverlapsAny | internal/corecfg/wireguard.go:263-276 | true exactly when some listed network shares an address |
| WgNets.NextNet | internal/corecfg/wireguard.go:236-249 | the first of 10.7.0.0/24 to 10.255.0.0/24 that shares no address with a used network, hub .1 and exit .2, and none exactly when all are taken |
| WgNets.CandidateLayout | internal/corecfg/wireguard.go:80-117 | that layout passes the checks made when a node is saved |
| WgNets.RoomForNodes | internal/corecfg/wireguard.go:98-100 | with prefixes of 16 bits or more, fewer than 249 nodes cannot use the range up |
| WgNets.Draft.AssignFresh | internal/corecfg/wireguard.go:191-234 | a new node ends up on a network apart from all others, or is refused exactly when none is left; a free choice and an edit are left alone |
| WgNets.CheckNetworks | internal/corecfg/wireguard.go:664-680 | accepted exactly when every network parses and no two share an address |
| WgNets.OffsetInside | internal/corecfg/wireguard.go:352-360 | adding an offset inside the network neither wraps nor leaves it |
| WgNets.UsableIsVisited | internal/corecfg/wireguard.go:333-346 | the scan from .10 around the network passes every usable address |
| WgNets.Allocate | internal/corecfg/wireguard.go:302-350 | the first usable host address in scan order; exhaustion is reported exactly when no usable address exists |
| WgNets.Clients.Create | internal/corecfg/wireguard.go:278-300 | however many clients are created, their addresses stay usable and pairwise distinct until none is left |
| SyncLoop.SyncTable.Kick | internal/server/sync.go:77-87 | sets both flags of one server and starts a loop only when none ran |
| SyncLoop.SyncTable.Next | internal/server/sync.go:89-99 | goes on and takes the wish, or stops and clears run |
| SyncLoop.SyncTable.SyncServers | internal/server/sync.go:63-75 | each named server is kicked once, server 0 skipped, loops started exactly where none ran |
| SyncLoop.ServerRow.Push | internal/server/sync.go:20-61 | a push succeeds exactly when the build does and the agent is offline or acknowledges within three tries after passing failures only; the revision is recorded exactly then, and an error shown exactly as the outcome says |
| SyncLoop.AtMostOneLoop | internal/server/sync.go:77-110 | in every interleaving at most one loop runs for a server, and want implies run |
| SyncLoop.NoLostUpdate | internal/server/sync.go:77-110 | when a server is quiet its last build began after its last kick |
| SyncLoop.AgentNeverGoesBack | internal/server/sync.go:20-51 | versions sent to the agent never decrease, through loops, handlers and retries |
| SyncLoop.QuietAgentIsCurrent | internal/server/sync.go:20-110 | and if the last push was acknowledged the agent's newest config holds every write made before the last kick |
| SyncLoop.LoopSettles | internal/server/sync.go:89-110 | without another kick each loop step brings it nearer to rest, and no other step takes it back |
| Rpc.AgentConn.NextId | internal/server/hub.go:118-120 | the counter goes up by one and the new value is the id |
| Rpc.AgentConn.Enter | internal/server/hub.go:367-370 | a call waits under the id it drew, and nobody else is moved |
| Rpc.AgentConn.Dispatch | internal/server/hub.go:344-354 | a reply is taken out for the call waiting for its id, or dropped |
| Rpc.AgentConn.Leave | internal/server/hub.go:372-376 | a call that ends waits no more |
| Rpc.EachCallGetsItsOwnReply | internal/server/hub.go:344-395 | in every interleaving, drawing an id, entering it, taking a reply out and handing it over being separate steps, a caller gets the first reply to its own id on its own connection, and no two calls share one |
| Rpc.NothingLeftWaiting | internal/server/hub.go:356-395 | when all calls have ended no table holds anything |
| Rpc.OnlineIffNewestOpen | internal/server/hub.go:201-255 | a server has a connection in the table exactly while its newest one is registered; the end of a replaced one does not take it away |
| Rpc.MarkRightIff | internal/server/hub.go:160-255 | in every interleaving, restored backups included, the mark agrees with the table exactly when the last successful write of it said online exactly if the newest connection has neither ended nor been dropped |
| Rpc.LateOfflineSticks | internal/server/hub.go:210-223 | a reconnect that leaves an online server marked offline |
| Rpc.LateOnlineSticks | internal/server/hub.go:179-223 | a replaced connection that leaves a server marked online with nobody connected |
| Rpc.FailedImportSticks | internal/server/handlers_backup.go:201-206 | a failed import that does the same |
| CoreApply.NewestApplyWins | internal/agent/cores.go:150-164 | in every interleaving the generations that get to the core strictly increase, and when all calls have returned the last that did is the newest issued |
| CoreApply.StoredDespiteOverlap | internal/agent/cores.go:150-204 | whatever overlaps, the stored config, request and API address are those of the last request that got to the core and was accepted there |
| CoreApply.NewestDecides | internal/agent/cores.go:150-204 | when all calls have returned and nobody removed the core, what is stored is the newest request if it was accepted, and otherwise the one it found |
| CoreApply.YesMeansStoredIff | internal/agent/cores.go:158-164 | right after an apply was answered yes its config is stored exactly when no newer one had begun or the same one was in use |
| CoreApply.Agent.BeginApply | internal/agent/cores.go:151-154 | a call draws a generation above all before |
| CoreApply.Agent.FinishApply | internal/agent/cores.go:158-164 | a call that was overtaken changes nothing and says yes; the newest takes effect |
| CoreApply.Agent.Install | internal/agent/cores.go:250-292 | a config other than the one in use is taken or rolled back, for every failure |
| CoreApply.Agent.Rollback | internal/agent/cores.go:294-312 | the config accepted before is put back as far as writing and starting succeed |
| CoreApply.Agent.ApplyJSON | internal/agent/cores.go:231-292 | the answer and the new file, process and stored config, for every failure |
| CoreApply.Agent.Apply | internal/agent/cores.go:172-204 | the same with the stats API address |
| CoreApply.Agent.TooMany | internal/agent/cores.go:683-693 | forgets failures older than two minutes and counts the rest |
| CoreApply.Agent.Watch | internal/agent/cores.go:635-681 | a core that is down is started from the file, unless it failed five times in two minutes |
| CoreApply.Agent.Remove | internal/agent/cores.go:128-148 | file, process and stored configs go, the API address stays |
| CoreApply.StoredConfigIsLastAccepted | internal/agent/cores.go:231-312 | over every run of events at the core, whatever fails, the stored config, request and API address are those of the last request accepted there |
| CoreApply.SyncedExactly | internal/agent/cores.go:294-312 | file and process agree with the stored config after a step exactly unless a needed rollback write failed and left something else |
| CoreApply.RightUnlessTorn | internal/agent/cores.go:294-312 | over every run, the file is the config accepted last exactly unless the last write of it was a rollback that left something else, and a live process is exactly unless the watchdog started it from such a file |
| CoreApply.RunsLastAccepted | internal/agent/cores.go:635-681 | while rollback writes succeed, file and live process are always the last accepted config, also after the watchdog |
| CoreApply.ApplySettles | internal/agent/cores.go:231-312 | after a call file, process and stored config are the new config if accepted, the previous one if refused, running exactly when it could be started |
| CoreApply.TornRollbackSticks | internal/agent/cores.go:294-312 | a run in which a failed rollback write makes a wrong config run while the answer is yes |
| CoreApply.FailedStartsAreSpread | internal/agent/cores.go:683-697 | any six failed starts of a core span at least two minutes |
| Delivery.NewestHeldIff | internal/agent/agent.go:177-201 | in every interleaving of pushes, messages and applies, once the call that drew its generation last was accepted, the agent holds the newest config sent exactly when that call carried it |
| Delivery.KickReachesAgent | internal/server/sync.go:20-110 | when a server is quiet after an acknowledged push, no try was given up after it arrived, and the core was not removed since, the agent holds a config with every write made before the last kick |
| Delivery.LateTryWins | internal/agent/agent.go:177-201 | a run in which a message given up before enters last: the panel has its acknowledgement of the newer config and the agent ends with the older |
| Collect.Deltas | internal/agent/stats.go:740-799 | every reading moves the cursor, and each user is billed what the readings are above the old one |
| Collect.ClashDeltas | internal/agent/stats.go:583-622 | the same by connection, summed by user |
| Collect.NeverMoreThanMoved | internal/agent/stats.go:740-799 | however collections are committed or lost, a user is never billed more than the counter moved |
| Collect.BilledTelescopes | internal/agent/stats.go:740-799 | for a counter that never falls the bill is the last committed reading less the first |
| Collect.MaxMerge | internal/agent/stats.go:805-847 | one sample for each user, in each direction the larger of the two sources' sums |
| Collect.MergedIsBetween | internal/agent/stats.go:805-847 | the merged value lies between the larger source and the sum of both |
| Collect.Collector.Begin | internal/agent/stats.go:54-106 | a collection reads every source against its cursor and moves none; while one is open another does nothing |
| Collect.Collector.End | internal/agent/stats.go:107-162 | finish acts once, and cursors move only on commit |
| Collect.HandoverToClash | internal/agent/stats.go:117-121 | the first clash collection after a committed stats one bills nothing |
| Collect.HandoverFromClashIff | internal/agent/stats.go:117-124 | after any committed clash collections everything the stats query shows is still due, so a user is billed once exactly when clash billed that user nothing |
| Collect.HandoverFromClashDoubles | internal/agent/stats.go:117-124 | a run in which clash and then the stats query bill the same bytes |
| ProtoStats.VarintRoundTrip | internal/agent/grpcstats.go:193-202 | every 64-bit value is read back, whatever follows it |
| ProtoStats.DecodeVarint | internal/agent/grpcstats.go:193-202 | the loop over at most ten bytes, cut to 64 bits, computes the varint of the specification |
| ProtoStats.SkipProto | internal/agent/grpcstats.go:204-235 | skips exactly the payload of a field of any known wire type |
| ProtoStats.MessageRoundTrip | internal/agent/grpcstats.go:117-191 | any sequence of well-formed fields, known or not, is read back as it was |
| ProtoStats.RowMeaning | internal/agent/grpcstats.go:152-191 | the last name and last value count, and a row is refused exactly when a value exceeds a signed counter |
| ProtoStats.DecodeStat | internal/agent/grpcstats.go:152-191 | the loop reads a row as its fields mean |
| ProtoStats.DecodeQueryStats | internal/agent/grpcstats.go:115-150 | the loop reads one row for each field 1 |
| ProtoStats.QueryRoundTrip | internal/agent/grpcstats.go:115-191 | encoded rows come back in order, whatever unknown fields stand between and inside them |
| ProtoStats.DecodeGRPCStats | internal/agent/grpcstats.go:91-113 | the loop over frames reads them all or fails |
| ProtoStats.FramesConcatenate | internal/agent/grpcstats.go:91-113 | decoding a concatenation is the concatenation of the decodings |
| ProtoStats.FrameRoundTrip | internal/agent/grpcstats.go:91-113 | a framed message decodes as the message |
| Calendar.CycleCoversNow | internal/db/clock.go:81-103 | now is not before the start of its billing cycle and before the next start |
| Calendar.StartsTodayIff | internal/db/clock.go:81-124 | the cycle starts today exactly on the day the reset test asks for |
| Calendar.StartIsMonotone | internal/db/clock.go:81-95 | the start of the cycle never moves back as time goes on |
| Calendar.AddMonthsAndBack | internal/db/clock.go:105-115 | the month moves by exactly n, and going back returns exactly when the day exists in the other month |
| Calendar.UnixAgrees | internal/server/sync.go:255-257 | dates compare as their seconds do, leap years included |
| Calendar.ResetsAtCycleStart | internal/server/sync.go:232-254 | a day-based reset is due exactly on the first day of a cycle, in a month without one |
| Calendar.ResetsAreApart | internal/server/sync.go:149-177 | over any run of ticks a day-based reset never falls in a month that had one, and a cycle-based one comes at least the cycle's days after the last |
| Calendar.MonthHasResetIff | internal/server/sync.go:149-177 | after any run of ticks, a successful tick on the reset day leaves its month with a reset exactly unless the cycle already counts as begun in that month with no reset decided there |
| Calendar.EarlyStartSkipsMonth | internal/db/queries.go:1174-1183 | a cycle started by hand earlier in the month leaves the month without a reset |
| Calendar.LateStampSkipsMonth | internal/db/queries.go:381-384 | a write stamped after midnight at the end of a month costs the next month its reset |
| Calendar.EnforceOnce | internal/server/sync.go:149-172 | exactly the users that are due and whose write succeeds start a new cycle at zero; nobody else changes |
| Cards.SpliceDisplayIDs | internal/db/card_order.go:31-67 | accepted exactly for a non-empty list of at most 2000 existing ids without repeats; unmoved ids keep their slots, moved ones stand as asked |
| Cards.SlotsMatch | internal/db/card_order.go:58-65 | there are as many slots as moved ids, so the write index stays in bounds |
| Cards.RearrangedIsPermutation | internal/db/card_order.go:31-67 | no card is lost or doubled |
| Cards.RearrangedIsUnique | internal/db/card_order.go:31-67 | the request leaves one possible order |
| Cards.DisplayIsUnique | internal/db/card_order.go:69-91 | rows have one display order |
| Cards.Table.DisplayIDs | internal/db/card_order.go:69-91 | the ids by sort order, then id |
| Cards.Table.Reorder | internal/db/card_order.go:137-168 | after a committed reorder reading back gives exactly the new order; otherwise nothing changes |
| Cards.ReadBack | internal/db/card_order.go:163-167 | numbering rows from one stores their order |
| Cards.SpliceById | web/src/lib/cardOrder.js:13-27 | on every request the server accepts, the page shows the server's order |
| ShareLink.Base64RoundTrip | internal/corecfg/uri.go:501-522 | decoding undoes encoding for every byte string |
| ShareLink.EscapeRoundTrip | internal/corecfg/share.go:32-32 | a name is read back as it was |
| ShareLink.HostPortRoundTrip | internal/corecfg/uri.go:479-499 | host and port are read back from their printed form, IPv6 included |
| ShareLink.UserinfoRoundTrip | internal/corecfg/uri.go:451-477 | cipher and passwords are read back from the encoded part |
| ShareLink.LinkParts | internal/corecfg/uri.go:372-396 | the parser cuts a link at the separators that were printed, because no part contains one |
| ShareLink.SS2022RoundTrip | internal/corecfg/share.go:82-86 | parsing a printed link gives the same port, name, cipher and server:client password, and the same host exactly when it was stored without brackets |

## Left out

- Metering.BillBytes: the rate is a real number and the product is not rounded, where the code multiplies floating-point numbers; not-a-number and infinity are one refused value.
- Metering.Hub.ConsumeStats: which client a name leads to is a parameter, and so is what the rows say of a client; live rates are left out.
- Metering.Hub.ApplyPeers: peers arrive already resolved to clients; matching by key or address, the fallback to the only free client, the map of matched emails, live rates and the notification after a batch are not modelled, the day column of the traffic table is folded into one total, and frames of one server come one after the other.
- SiteFilter.BuildXray: inbound and outbound records other than rules are not built here, a domain or network pattern is an abstract predicate on destinations, and rules for the internal API are not part of the list.
- SiteFilter.ResolveSiteDeny: the catalogue of sites is a parameter.
- Chain.ApplyHopRelays: setting texts are taken as trimmed and lower-cased, share links parse or do not parse as the outside says, and minted secrets are parameters.
- Chain.ConfigOutbounds: which inbounds are entries and which socket marks a direct inbound gets come in as they were worked out.
- Chain.ChainOutbounds: outbounds hold tag, target, login and the outbound they dial through; transport and TLS settings are left out.
- WgSlots.AssignSlots: storing the new settings cannot fail here; in the code a failed write ends the call with earlier rows stored.
- WgNets.Allocate: texts are taken as parsed IPv4 prefixes or as unreadable.
- SyncLoop.NoLostUpdate: one server is modelled, since servers share nothing but the lock; what the configs contain is a version number.
- SyncLoop.AgentNeverGoesBack: speaks of the order in which configs are sent, not of a message still under way on a connection that was replaced.
- CoreApply.Agent.ApplyJSON: one core is modelled; the mieru core, WireGuard, speed limits and the firewall are left out, and what the agent drops from a config is a function of the text.
- CoreApply.NewestDecides: a removal after the last apply is excluded, since it stores nothing.
- CoreApply.FailedStartsAreSpread: from one removal of the core to the next, since removal forgets the failures.
- Collect.Collector.Begin: port rates, WireGuard peer frames and their hand-over are left out; counters are not negative.
- ProtoStats.DecodeGRPCStats: the HTTP exchange around the body is left out.
- HubRuns.HubIsItsClients: for frames in which no client has two peers; what two do is `Metering.SettledByOneIff`.
- Rpc.MarkRightIff: one server, present in the restored backup; shutting the panel down is not a step, and the next start clears the marks.
- Delivery.KickReachesAgent: one run of the agent's process, pushes as the only source of configs, and no message still under way on a connection that was replaced.
- Calendar.ResetsAreApart: one zone without clock changes, and only ticks reset a user.
- Cards.Table.Reorder: whether the inbounds are on one machine and whether the transaction commits are parameters.
- ShareLink.SS2022RoundTrip: for hosts without spaces, brackets inside, and the characters @ # ?, and for cipher names without a colon; names are bytes.
- Joining socket marks to emails (internal/agent/flowacct.go): the sums arrive here as samples of one more source.
- The rest of the repository: handlers, SQL, process control, shell and firewall rules, certificates and cryptography, JSON and YAML text, host statistics, conntrack and ss parsing, the React pages, sessions, backups and the other share link formats.
- Arranging an arbitrary slice by display order, reordering by drag and merging lists in the browser would only add easy members.
