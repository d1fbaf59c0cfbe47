# RoofSpan: verified models of its stateful cores

RoofSpan joins an Office computer, a cloud Control Plane and a Secure Relay that carries requests from paired mobile
devices to the Office. This project models the parts whose correctness depends on whole runs rather than on one call,
and proves what those parts promise.

Most cores appear twice. A *state machine* (functions on values, one per atomic step) carries the theorems about all
runs; a *class* does the same steps in place, as the program does, and each of its methods ensures that the new state is
the one its step computes. For the broadcast fabric, whose steps span nodes, the link is a refinement: each method of
`DeviceTable` is an operation on one node's view, every step of the fabric is one such operation at each node
(`RelayBroadcast.NodesMakeTheFabric`), and taking a publication queues what `InProcessBus.Publish` schedules
(`RelayBroadcast.TakeIsPublish`). The outbox drain runs over that same fabric and over the client steps that
`InstallationTunnel` performs; its own rows exist as values only.

| area | files |
|---|---|
| Secure Relay | `RelayRegistry`, `RelayRouting`, `RelayHubObject`, `RelayCluster`, `RelayGuards`, `RelayRuns`, `RelayAnswers`, `RelayProgress`, `RelayBroadcast`, `RelayOutbox`, `RelayWire`, `RelaySession` |
| Duplicate properties | `DuplicateClusters`, `NoteText`, `PropertyMerge`, `PropertyDedup` |
| Billing, entitlements, request nonces | `Subscriptions`, `Entitlements`, `RequestNonces` |
| Installations | `Installations` |
| Control Plane schema repair | `Migrations`, `MigrationRunner` |
| Sessions and throttles | `RefreshTokens`, `RefreshRaces`, `Throttles` |
| Property locations | `LocationCache`, `Geo` |

How the source's world is represented:

- A coroutine is cut at its suspension points; what runs between two of them is one step. A database transaction under
  an advisory lock, and a registry operation of `AsyncMemoryRegistry`, is one step.
- A future is a field of its coroutine's record (`Waiting` or `Settled`); a connection is an installation id and
  a serial number, and its `pending` dictionary is the part of one map whose keys carry that connection. A response
  records the installation whose tunnel sent it.
- The clock, random ids, network outcomes, geocoder answers and the distance between two points are parameters. The
  distance is any symmetric function.
- A signature is a boolean. Addresses and contacts are cleaned before the model begins: only equality of
  the cleaned texts matters.

## What turned out to differ from what one might expect

- **Location cache.** The final coordinates are independent of the history of geocoder results exactly when both
  original RentCast coordinates are set. If one is missing, a located result followed by a failed one turns the
  geocoder's point into "the RentCast point", and labels it so (`LocationCache.LocatedThenLost`).
- **Nonce retention.** The handler reads the clock separately for the tolerance check and for the purge, so the exact
  bound is twice the tolerance, plus one truncated second, plus the time between those readings
  (`RequestNonces.RetentionExactlyEnough`). The defaults of 300 and 900 seconds leave ample room.
- **Schema runner.** A complete schema that is stamped with an older known revision can never become ready: the upgrade
  collides with the columns that already exist (`Migrations.StuckFails`). A schema that the recovery-column shortcut
  takes for the newest one fails its first run, which leaves the head stamp behind; the second run rebuilds it if it is
  empty (`Migrations.ShortcutNeedsTwoRuns`).
- **Registration.** In every serial run the branches that insert a missing license or subscription are never taken
  (`Installations.RowsFound`).
- **Broadcast.** A publication that timed out may still have been taken by the broker; devices on other nodes can then
  receive it although Office was never acknowledged, still at most once per publication (`RelayBroadcast.ExactlyOnce`).
- **Request ids.** Ids come from the clients, and the socket loop compares them only within one socket. A run keeps every
  hub sound, with no request stranded without an entry and none given a response that is not its own, if and only if
  every step passes a check that its node could make there and then (`RelayRuns.NodesCanKeepSound`): a start finds the
  key it writes free, a leg finds its slot on the tunnel free, and a reply carries an error, comes too late, or names the
  installation of the request that waits under its id. The source checks none of the three. A free key at the start is *not* enough:
  a request forwarded and timed out frees its key, and the late response to it completes the next request under that
  id, whichever installation that one asked (`RelayRouting.LateReplyCrosses`); and two nodes that forward one id to one
  installation both find it free, but their legs collide where the tunnel is (`RelayRouting.LegsCollide`). Distinct
  in-flight ids across the cluster, envelopes included, are enough (`RelayRuns.FreshRunsAreGuarded`).
- **Reconnects.** With a registry behind a network the hub drops its tunnel first and releases the shared entry later. A
  tunnel that reconnects to the same node in between loses its fresh entry, which the node's next heartbeat reclaims
  (`RelayRuns.ReconnectLosesEntry`). Ownership is therefore stable up to that release, not up to the drop
  (`RelayRuns.OwnerStable`).
- **Units.** Rows that name two different units are never likely duplicates, but units are compared pair by pair: a row
  without a unit that lies near both joins them, and the two apartments are folded into one
  (`PropertyDedup.BlankUnitJoins`).
- **Refresh tokens.** A refresh reads its token's row and commits later, with no lock in between. Over all interleavings
  a family keeps at most one unrevoked token exactly if no exchange commits while its family has another one, and an
  ended family stays ended as well exactly if no exchange commits after something else revoked its token
  (`RefreshRaces.OneLiveExactly`, `RefreshRaces.SoundExactly`). Two overlapping refreshes of one token are both granted and
  fork the family (`RefreshRaces.TwoRefreshesRace`); one that overlaps a logout outlives it
  (`RefreshRaces.LogoutIsOutlived`). The results of `RefreshTokens` are about exchanges that do not overlap.
- **Webhooks.** An event whose processing failed before it was applied is lost: its row stays, so that the provider's
  redelivery is taken for a duplicate (`Subscriptions.FailedIsLost`).

## Model

| member | source | states |
|---|---|---|
| RelayRegistry.AsyncMemoryRegistry.Register | backend/relay/registry.py:82-84 | the newest tunnel takes the entry unconditionally, with a fresh lifetime; no other entry changes |
| RelayRegistry.AsyncMemoryRegistry.Heartbeat | backend/relay/registry.py:86-94 | refuses exactly when another node's entry is still live; otherwise renews or re-claims it |
| RelayRegistry.AsyncMemoryRegistry.Unregister | backend/relay/registry.py:96-100 | removes the entry only if this node owns it |
| RelayRegistry.AsyncMemoryRegistry.LookupNode | backend/relay/registry.py:102-110 | names the owner of a live entry only, and drops a lapsed one it meets |
| RelayRegistry.StepsAgree | backend/relay/registry.py:72-122 | one operation answers alike on a lazily expiring table and on one that removes entries as they lapse and runs the compare-and-set scripts, and keeps the two in agreement on what is live |
| RelayRegistry.LazyRefinesEager | backend/relay/registry.py:72-122 | for any operation sequence at non-decreasing times the two registries give the same heartbeat and lookup answers |
| RelayRegistry.FoundExactly | backend/relay/registry.py:82-110 | a node that claims an installation is found by every look-up from then until its lifetime is over and by none after, unless another claims it or it gives up |
| RelayRegistry.GrantedExactly | backend/relay/registry.py:86-94 | a heartbeat is granted exactly if no other node's lifetime still runs |
| RelayHubObject.RelayHub.FailPendingOf | backend/relay/hub.py:103-105 | settles exactly the unfinished futures pending on the connection, as unavailable |
| RelayHubObject.RelayHub.Register | backend/relay/hub.py:99-110 | the new tunnel is held and owned; a replaced one's requests are failed; correlation entries and requests still match one to one |
| RelayHubObject.RelayHub.Unregister | backend/relay/hub.py:112-123 | only the tunnel that is still current is dropped and its ownership released; an older one evicts nothing |
| RelayHubObject.RelayHub.ResolveResponse | backend/relay/hub.py:215-222 | a response settles the one unfinished future under its id on the current tunnel, or nothing |
| RelayHubObject.RelayHub.RouteStart | backend/relay/hub.py:225-261 | local tunnel first, else one hop to the recorded live owner and to nobody else, else an immediate refusal; the hub invariant holds afterwards exactly if the key written was free |
| RelayHubObject.RelayHub.RouteEnd | backend/relay/hub.py:250-251 | the `finally` block removes the request's own entry and no other, and the hub invariant holds again |
| RelayHubObject.RelayHub.HandleRemoteResponse | backend/relay/hub.py:305-317 | an unknown, late or duplicate reply changes nothing; otherwise the origin's future gets the frame or the error it carries |
| RelayHubObject.RelayHub.HeartbeatVisit | backend/relay/hub.py:323-337 | an owned tunnel stays and is renewed; a superseded one is dropped with its requests failed |
| RelayHubObject.RelayHub.HeartbeatPass | backend/relay/hub.py:320-337 | after a pass the hub holds exactly the tunnels it owns, each renewed; other entries are untouched and no request ended |
| RelayRouting.FinishQuiet | backend/relay/hub.py:245-269 | ending one coroutine keeps entries and running coroutines matched one to one, and leaves every other coroutine exactly as it was |
| RelayRouting.ResolveQuiet | backend/relay/hub.py:215-222 | a tunnel response settles the request of that installation with that id, and leaves every other coroutine exactly as it was |
| RelayRouting.HandleReplyQuiet | backend/relay/hub.py:305-317 | a reply settles the request forwarded under its correlation id, and leaves every other coroutine exactly as it was |
| RelayRouting.BeginKeeps | backend/relay/hub.py:225-261 | starting a request whose key is free keeps the hub invariant and every other request |
| RelayRouting.StartIsSoundExactly | backend/relay/hub.py:225-269 | right after a start the hub is sound if and only if the key it wrote was free; what later steps need is RelayGuards.GuardExactly |
| RelayRouting.NothingLeaks | backend/relay/hub.py:250-269 | with no request running both correlation tables are empty |
| RelayRouting.SharedIdStrandsTheFirst | backend/relay/hub.py:241-251 | two requests under one id on one tunnel: the second takes the first one's entry and its response, and the first is left without one |
| RelayRouting.SharedIdCrossesInstallations | backend/relay/hub.py:253-317 | two requests under one id forwarded to different installations: the first installation's response settles the second one's request |
| RelayRouting.LateReplyCrosses | backend/relay/hub.py:253-317 | a request that timed out frees its key; the next one under it starts soundly and is then given the late response of another installation |
| RelayRouting.LegsCollide | backend/relay/hub.py:272-303 | two legs under one id on one tunnel: the second takes the first one's slot and its response |
| RelayCluster.EndKeeps | backend/relay/hub.py:283-303 | a leg that ends, and the reply it may publish, keep the invariant of the whole cluster |
| RelayCluster.PublishKeeps | backend/relay/hub.py:253-269 | forwarding puts at most one envelope of the id on the bus, also when the publish fails after the broker took it |
| RelayCluster.DeliverKeeps | backend/relay/hub.py:272-303 | delivering an envelope keeps the cluster invariant and every settled future and ended request, whether it opens a leg, answers an origin, bounces or is too late |
| RelayCluster.StepKeeps | backend/relay/hub.py:99-337 | while ids are fresh every step of any node, of the bus and of the clock keeps the invariant and never completes a future or ends a request twice |
| RelayGuards.GuardExactly | backend/relay/hub.py:99-337 | from sound hubs a step leaves every hub sound if and only if its local guard holds: a free key for a start, a free slot for a leg, a fitting reply |
| RelayGuards.GuardKeeps | backend/relay/hub.py:99-337 | a guarded step also keeps every settled future and ended request |
| RelayGuards.GuardMissed | backend/relay/hub.py:241-317 | a step whose guard fails strands a running request without an entry or gives one a response that is not its own |
| RelayGuards.FreshIsGuarded | backend/relay/hub.py:225-317 | while every request starts under an id in flight nowhere, every step meets its guard |
| RelayRuns.SoundExactly | backend/relay/hub.py:99-337 | for every run, ids shared or not: all hubs stay sound, and no request is ever stranded or misled, if and only if every step meets its guard |
| RelayRuns.NodesCanKeepSound | backend/relay/hub.py:99-337 | in every run from the start that is so if and only if every step passes a check its node can make, a reply being judged by the installation its envelope names |
| RelayRuns.FreshRunsAreGuarded | backend/relay/hub.py:225-317 | a run from the start in which every request has a fresh id is guarded throughout |
| RelayRuns.EndsOnce | backend/relay/hub.py:225-317 | in every guarded run a request ends at most once, for ever, with one error or the response that bears its own id and was sent by its own installation's tunnel |
| RelayRuns.CrossesAtMostOnce | backend/relay/hub.py:253-303 | while ids are fresh a request crosses nodes at most once, its serving leg never forwards, and at most one envelope of its id is under way |
| RelayRuns.OnlyItsOwnEndEndsIt | backend/relay/hub.py:225-337 | nothing else in the cluster ends it, whatever connects, drops, beats or arrives |
| RelayRuns.NoEntryOutlivesItsRequest | backend/relay/hub.py:245-269 | in every state a guarded run reaches each pending and cross-pending entry belongs to a running request of that id |
| RelayRuns.OwnerStable | backend/relay/registry.py:82-112 | a live owner stays the live owner exactly unless another node registers, the registry runs the owner's release, or the entry expires |
| RelayRuns.OnlyOwnerKeepsTunnel | backend/relay/hub.py:320-337 | after one heartbeat by every node without such a disturbance only the owner still holds a tunnel |
| RelayRuns.UnregisterAtOnce | backend/relay/hub.py:112-123 | with a registry that answers at once the drop and the release are together one unregister |
| RelayRuns.ReconnectLosesEntry | backend/relay/hub.py:115-121 | with one that does not, a tunnel that reconnects to the same node in between is held but owned by nobody, until the next heartbeat claims the entry back |
| RelayAnswers.OwnerAnswers | backend/relay/hub.py:225-317 | a request for an installation whose live owner is another node is answered in eight steps with exactly the frame that the owner's tunnel sent |
| RelayAnswers.GoesToOwner | backend/relay/hub.py:232-265 | such a request is published to the owner's node, and nothing else is |
| RelayAnswers.LocalAnswers | backend/relay/hub.py:225-251 | with a tunnel on the node the request is answered there, and nothing goes on the bus |
| RelayAnswers.BouncedEnds | backend/relay/hub.py:283-303 | an owner that has lost the tunnel sends the request back and it ends unavailable |
| RelayAnswers.SilenceTimesOut | backend/relay/hub.py:290-317 | a tunnel that keeps silent makes the leg give up at its deadline, and the request ends timed out |
| RelayAnswers.OversizeResponseFails | backend/relay/hub.py:297-317 | a response too large for an envelope ends the request unavailable |
| RelayAnswers.LostTunnelEnds | backend/relay/hub.py:99-120 | a request whose tunnel is replaced or lost ends unavailable at once |
| RelayAnswers.RefusedExactly | backend/relay/hub.py:225-259 | when a start is refused as unavailable, when as too large, and when it goes on |
| RelayProgress.ServesLowers | backend/relay/hub.py:245-317 | every send, publish, deadline, resumption, delivery and loss strictly lowers a measure of the work left in the whole cluster |
| RelayProgress.OthersKeepWork | backend/relay/hub.py:99-137 | connects, drops, releases, heartbeats, tunnel answers and the clock leave that measure as it is |
| RelayProgress.ServiceIsBounded | backend/relay/hub.py:225-317 | in every run, ids shared or not, at most six such steps are taken per request started, so none is forwarded, bounced or served without end |
| RelayProgress.SomethingCanServe | backend/relay/hub.py:245-303 | while a request runs or an envelope is under way some such step can be taken, now or within the timeout |
| RelayProgress.RunDueSoon | backend/relay/hub.py:249-267 | in every run no wait for a response is due further ahead than the timeout |
| RelayProgress.EndedByDeadline | backend/relay/hub.py:245-269 | in every guarded run a request handed over by some moment has ended, rightly, in every state at least the timeout later in which its own coroutine has nothing left to do, whatever else is going on |
| RelayProgress.ExactlyOneOutcome | backend/relay/hub.py:225-317 | when a guarded run has taken all such steps, and no wait makes another possible, every request that started ended exactly once, rightly, and no envelope and no correlation entry is left |
| RelayProgress.RequestsCanEnd | backend/relay/hub.py:245-303 | from every state the requests can be brought to that end in boundedly many steps |
| RelayBroadcast.DeviceTable.RegisterDevice | backend/relay/hub.py:129-130 | adds one device to the node's view and leaves the others alone |
| RelayBroadcast.DeviceTable.UnregisterDevice | backend/relay/hub.py:132-137 | removes one device from the node's view and leaves no empty dictionary behind |
| RelayBroadcast.DeviceTable.DeliverLocal | backend/relay/hub.py:142-157 | each device whose send works gets the frame once, a broken one stops no other, nobody else gets anything |
| RelayBroadcast.DeviceTable.Broadcast | backend/relay/hub.py:159-188 | local delivery always; accepted in multi-node mode only if the envelope fits and the broker took it in time; when no send fails, the node's view changes as its broadcast operation says |
| RelayBroadcast.DeviceTable.BroadcastAndAck | backend/relay/hub.py:190-203 | Office is sent an acknowledgement exactly when the configured topology accepted; that send may fail, and then nothing is acknowledged and the error surfaces |
| RelayBroadcast.DeviceTable.OnBroadcast | backend/relay/hub.py:205-213 | the node's own echo is dropped, every other publication delivered once: the receive operation on its view |
| RelayBroadcast.HandleMoves | backend/relay/hub.py:205-213 | one handler call gives the frame to exactly the devices at its node, none if it is the origin's echo; what was due there no longer is, and nothing else changes |
| RelayBroadcast.ExactlyOnce | backend/relay/hub.py:142-213 | in every run an accepted publication reaches each device connected throughout exactly once; nobody gets one twice or gets another installation's; one the broker never took reaches no other node |
| RelayBroadcast.ReachesWhoStayed | backend/relay/hub.py:142-213 | a device of the installation connected when an accepted broadcast begins and at the end received it exactly once, if its node has handled it; nothing is said through recorded audiences |
| RelayBroadcast.CrossesOver | backend/relay/hub.py:142-213 | a publication the broker takes reaches the devices on another node when that node handles it, and those on its own node once only |
| RelayBroadcast.TakeIsPublish | backend/relay/transport.py:46-50 | what the bus queues for a publication is what the in-process bus schedules for one handler per node |
| RelayBroadcast.NodeFollows | backend/relay/hub.py:126-213 | every step of the fabric is, at each node, one operation of that node's device table or nothing |
| RelayBroadcast.NodesMakeTheFabric | backend/relay/hub.py:126-213 | so in every run what the fabric holds at a node is what that node's operations made of it |
| RelayOutbox.DeliveredMeansAccepted | backend/services/office_outbox.py:70-109 | a row is delivered only if a broadcast of that event and installation was accepted, which in multi-node mode means it fitted and the broker has it; any other row becomes leasable again |
| RelayOutbox.AckMeansAccepted | backend/relay/hub.py:190-203 | an acknowledgement is put on the tunnel only for a broadcast whose result, computed from topology, size and publish, is acceptance |
| RelayOutbox.DeliveredReachesDevices | backend/relay/hub.py:159-213 | end to end: some accepted publication of a delivered event reached each device connected throughout exactly once, as soon as its node has handled it |
| RelayOutbox.SingleNodeDelivers | backend/relay/hub.py:159-203 | on a single node a leasable row is delivered by seven steps whatever the size of the frame and the state of any broker, and the node's devices have it |
| RelayOutbox.MultiNodeDelivers | backend/relay/hub.py:159-203 | in multi-node mode a leasable row is delivered by eight steps when the frame fits, the broker takes it and the publish returns in time |
| RelayOutbox.AckExactly | backend/relay/hub.py:159-203 | a broadcast's result is acknowledged exactly if there is one node only, or the envelope fitted and the publish came back in time |
| RelayOutbox.LeaseExcludes | backend/services/office_outbox.py:70-109 | a leased row cannot be leased again before its lease has run out, and can after it |
| RelayOutbox.DeliveredIsFinal | backend/models.py:66-87 | a delivered row never changes again |
| RelayOutbox.Confirmed | backend/relay/tunnel_client.py:114-127 | every id reported back is one whose acceptance arrived |
| RelayOutbox.PumpReportsConfirmed | backend/relay/tunnel_client.py:103-133 | a batch adds exactly the confirmed events to the report and leaves none of its waiters behind |
| RelayOutbox.InstallationTunnel.ResolveAcceptance | backend/relay/tunnel_client.py:135-139 | an acknowledgement resolves the waiter of its own event only |
| RelayOutbox.InstallationTunnel.PumpBatch | backend/relay/tunnel_client.py:103-133 | the client after a batch is the one its send, hear, confirm and give-up steps make; exactly the events accepted in time are reported, in order |
| RelayOutbox.InstallationTunnel.FinishBatch | backend/relay/tunnel_client.py:128-133 | after the report nothing is left to report, delivered or not |
| RelayWire.AcceptsWhatIsBuilt | backend/relay/envelope.py:19-57 | a node accepts exactly the objects that extend some request or response with four nonempty ids, their version 1, 1.0 or true |
| RelayWire.AcceptsWhatIsBroadcast | backend/relay/envelope.py:60-85 | the same for publications, and no message passes both validators |
| RelayWire.RoundTrip | backend/relay/envelope.py:19-85 | what a node builds is read back with the same sender, receiver, installation, id and frame |
| RelayWire.InProcessBus.Subscribe | backend/relay/transport.py:40-41 | appends the handler to its channel only |
| RelayWire.InProcessBus.Unsubscribe | backend/relay/transport.py:43-44 | empties that channel only |
| RelayWire.InProcessBus.Publish | backend/relay/transport.py:46-50 | schedules one call per subscriber of the channel, in subscription order, and nothing else |
| RelaySession.ServeKeeps | backend/relay/server.py:350-408 | one frame keeps the socket's books: replies, answers and routed ids |
| RelaySession.OneReplyEach | backend/relay/server.py:348-408 | while open, each request has one reply under its own id, one of an id's replies is its real answer, and no id is routed twice |
| RelaySession.EachFrameIsAnswered | backend/relay/server.py:348-408 | each frame gets exactly its own answer: a ping its time stamp, a first request under its id the body routing gave or the code of the failure, a repeated one a duplicate notice; and which frame closes the session |
| RelaySession.MobileLoop | backend/relay/server.py:348-408 | the loop sends and routes what the specification of a session says, up to BYE or an uncaught failure |
| DuplicateClusters.DuplicateSymmetric | backend/property_dedup.py:98-125 | the duplicate decision is symmetric although it tests only one side's house and street |
| DuplicateClusters.DuplicateExactly | backend/property_dedup.py:98-125 | two rows are likely duplicates exactly if at one address, of no different units, of no contradictory directions, and within 500 feet, or 250 if only one names directions |
| DuplicateClusters.DuplicateNotTransitive | backend/property_dedup.py:105-125 | the relation is not transitive: three pins in a row |
| DuplicateClusters.ComponentLinked | backend/property_dedup.py:249-260 | any two members of a grown component are linked by a chain of likely duplicates inside it |
| DuplicateClusters.GrowComponent | backend/property_dedup.py:250-260 | the scan of the shrinking work-list ends with a component nothing left over is a duplicate of |
| DuplicateClusters.Components | backend/property_dedup.py:244-262 | a bucket is split into connected components that are pairwise apart and cover it |
| DuplicateClusters.FileByBucket | backend/property_dedup.py:236-241 | every addressed row is in the one group of its territory and address key |
| DuplicateClusters.Clusters | backend/property_dedup.py:236-260 | all clusters together are exactly the addressed rows and pairwise apart |
| DuplicateClusters.DuplicatesShareCluster | backend/property_dedup.py:105-125 | likely duplicates are always in one cluster, so bucketing by address misses no pair |
| PropertyMerge.MergedCompose | backend/property_dedup.py:270-272 | folding by one redirect and then another loses nothing and is folding by their composition |
| PropertyMerge.NothingLost | backend/property_dedup.py:158-223 | the survivor holds exactly the dependents of each kind of the rows folded into it, the union of their contact keys and customers and the disjunction of do-not-knock, and each of their notes stands in its note |
| NoteText.MergeKeepsBoth | backend/property_dedup.py:205-208 | the merged note contains both stripped notes, however the one was found in the other, and is empty only if both were |
| NoteText.MergedOnce | backend/property_dedup.py:205-208 | a note whose text is there already adds nothing, so merging it again changes nothing |
| NoteText.KeepsOn | backend/property_dedup.py:205-208 | a note that came through one merge comes through the next |
| PropertyMerge.CountsKept | backend/property_dedup.py:190-196 | no dependent row disappears or changes kind, and a removed row holds nothing |
| PropertyDedup.PropertyStore.MergeContacts | backend/property_dedup.py:158-168 | contacts follow the merge; one is deleted only if its cleaned key is already at the survivor |
| PropertyDedup.PropertyStore.MergeCustomerProperties | backend/property_dedup.py:171-182 | the same for customer links, by customer |
| PropertyDedup.PropertyStore.MergeProperty | backend/property_dedup.py:185-223 | merging one duplicate keeps everything tracked, note text included, and deletes that row only |
| PropertyDedup.InsertScored | backend/property_dedup.py:268 | one step of a stable descending sort |
| PropertyDedup.PropertyStore.SortCluster | backend/property_dedup.py:264-268 | the scored list is descending and names each member of the cluster once with its own score |
| PropertyDedup.Preference | backend/property_dedup.py:134-155 | a row scores at least as high as another only if located when that one is, then by contacts, related rows and filled fields, then by age |
| PropertyDedup.PropertyStore.Collapse | backend/property_dedup.py:264-272 | the survivor is a member with the best score, and all others are folded into it |
| PropertyDedup.PropertyStore.FoldClusters | backend/property_dedup.py:261-272 | every cluster of two or more is collapsed, nothing else is touched, and the count is the number of rows removed |
| PropertyDedup.Finished | backend/property_dedup.py:236-272 | collapsing maximal components leaves no duplicate pair, links each removed row to its survivor by a chain, and moves nothing exactly when there was no duplicate |
| PropertyDedup.PropertyStore.Cleanup | backend/property_dedup.py:226-276 | one run: no two rows left in scope are likely duplicates, each removed row is chained to its survivor, nothing tracked is lost, zero merges exactly when there was nothing to merge; in terms of the rows themselves: nothing is merged when all rows at one address name different units or contradictory directions or lie over 500 feet apart, rows that are plainly one share a survivor, and two rows are merged exactly then |
| PropertyDedup.PropertyStore.CleanupTwice | backend/property_dedup.py:226-276 | an immediate second run merges zero rows and leaves the tables as the first left them |
| PropertyDedup.PlainlyOneMeet | backend/property_dedup.py:98-125 | two rows at one address, with equal units or one blank, and directions and distance that fit, are folded into one survivor |
| PropertyDedup.BlankUnitJoins | backend/property_dedup.py:98-102 | rows of two different units, which are never likely duplicates, are folded into one when a row without a unit lies near both |
| Subscriptions.TransitionAbsorbs | backend/control_plane/service.py:80-98 | applying the time-based transitions at t1 and then at t2 >= t1 equals applying them at t2 |
| Subscriptions.OnlyTheLastMatters | backend/control_plane/service.py:80-98 | any sequence of sweeps, issues and relay checks leaves what the last alone would have left |
| Subscriptions.RowsMatchArrivals | backend/control_plane/service.py:331-347 | the event rows are exactly the events delivered, with their timestamps or without, and with the company they name or none |
| Subscriptions.AcceptedIffUpToDate | backend/control_plane/service.py:350-369 | a first delivery is accepted if and only if nothing newer of the company was delivered and processed to the end before it, skipped events included |
| Subscriptions.LatestDecides | backend/control_plane/service.py:309-419 | for any arrival order, redeliveries, failures, ties and missing timestamps: the last first delivery of a state-bearing event of the company that was applied and not older than any counted before it decides the final state |
| Subscriptions.NoneDecides | backend/control_plane/service.py:309-419 | if there is none, the state stays what it was |
| Subscriptions.NewestDecides | backend/control_plane/service.py:309-419 | in particular the strictly newest event decides, if it is state-bearing, was processed to the end and no time-based transition follows it |
| Subscriptions.EachEventOnce | backend/control_plane/service.py:331-334 | a redelivered event changes nothing, however much happened in between |
| Subscriptions.FailedIsLost | backend/control_plane/service.py:331-381 | an event whose processing failed before it was applied changes nothing then, and nothing when it is delivered again |
| Subscriptions.TiesFollowArrivalOrder | backend/control_plane/service.py:361-367 | with equal timestamps arrival order decides, so strictness is needed |
| Subscriptions.MovesOn | backend/control_plane/service.py:80-98 | while only time, seat changes and redeliveries pass, the state changes exactly at the end of a cancelled period or of grace |
| Subscriptions.CancellationTakesEffect | backend/control_plane/service.py:396-400 | after an applied CANCELLATION an ACTIVE subscription is CANCELLED once a transition comes at or after the end of its period, and ACTIVE until then |
| Subscriptions.CancelledAndResumed | backend/control_plane/service.py:396-413 | an applied UNCANCELLATION or renewal within the period keeps it ACTIVE for any time after |
| Subscriptions.RenewalRestores | backend/control_plane/service.py:409-413 | a purchase, renewal or product change leaves ACTIVE, not cancelled, one billing period from its arrival, no grace |
| Subscriptions.FailedPaymentRuns | backend/control_plane/service.py:405-408 | a failed payment or pause starts grace at its arrival unless it runs already, and the state is SUSPENDED once a transition comes at its end |
| Subscriptions.ExpirySuspends | backend/control_plane/service.py:414-415 | an expiry suspends until another event comes |
| Subscriptions.OthersChangeNothing | backend/control_plane/service.py:389-419 | an event of an unknown type, or that names no company, is recorded and changes nothing |
| Subscriptions.LateChangesNothing | backend/control_plane/service.py:350-370 | a known event older than one processed for the company is recorded and changes nothing |
| Subscriptions.RepliesExactly | backend/control_plane/service.py:331-386 | which of the four replies a delivery gets |
| Subscriptions.SeatsTakeEffect | backend/control_plane/service.py:422-440 | more seats count at once, fewer from a transition at or after the billing date, always within the limits |
| Subscriptions.SubscriptionRow.ApplyBillingTransitions | backend/control_plane/service.py:80-98 | the row becomes the transition of its old value: due seats, cancellation at period end, grace expiry |
| Subscriptions.SubscriptionRow.SetSubscriptionSeats | backend/control_plane/service.py:422-440 | more seats at once, fewer at the billing date; the billing state is untouched |
| Subscriptions.SubscriptionRow.ProcessWebhook | backend/control_plane/service.py:331-386 | duplicates change nothing, stale mutations are only recorded, an event that names no company is recorded without effect, a failure before or after the change leaves its row unfinished, anything else is applied and recorded |
| Subscriptions.SubscriptionRow.ApplyBillingEvent | backend/control_plane/service.py:389-419 | each event type's effect on state, grace start, renewal switch and period end |
| Subscriptions.SweepBilling | backend/control_plane/service.py:443-454 | every subscription is transitioned at its own clock reading and the changed ones are counted |
| Entitlements.AccessExactly | backend/licensing/state.py:33-55 | access needs a token that still verifies and asserts ACTIVE or GRACE; the second expiry test never decides |
| Entitlements.PaidMeansAccess | backend/control_plane/service.py:101-134 | an installation that fetches a token while its company is ACTIVE or in grace has access until the last whole second not after fetch plus offline grace, whatever follows but another stored token |
| Entitlements.UnpaidMeansNone | backend/control_plane/service.py:101-134 | one that fetches a token while its company is suspended or cancelled has none from then on, until it stores another |
| Entitlements.SnapshotServes | backend/licensing/service.py:142-150 | what a use finds is what later uses go by until the snapshot's lifetime is over, and no longer |
| Entitlements.RunBounded | backend/licensing/service.py:63-150 | every step but a billing event keeps all that can grant access below the last second a billing event set |
| Entitlements.HistoryKeeps | backend/control_plane/service.py:101-134 | in every history from activation all tokens, the cache and the snapshot date from the past and are bounded by tokens signed |
| Entitlements.BillBounds | backend/control_plane/service.py:389-419 | a failed payment, a pause or an expiry sets that bound, whatever the installation holds at the moment |
| Entitlements.AccessEnds | backend/control_plane/service.py:101-134 | in every history from activation whose last billing event was a failed payment or a pause, no installation has access at or after it plus payment grace, offline grace and snapshot lifetime, whatever the schedule |
| Entitlements.AccessEndsOnExpiry | backend/control_plane/service.py:389-419 | after an expiry, no later than offline grace plus snapshot lifetime |
| Entitlements.BillBeginsGrace | backend/control_plane/service.py:405-408 | a history that ends in a failed payment reaches the state from which the bound is measured |
| Entitlements.AccessLastsExactly | backend/licensing/entitlement.py:55-73 | once the payment grace is over, some schedule still has access if and only if now is before the last whole second below the sum, plus the snapshot lifetime |
| Entitlements.LicenseService.Refresh | backend/licensing/service.py:63-104 | only a token that verifies replaces the cached one; any failure keeps it, and the snapshot is dropped either way |
| Entitlements.LicenseService.EffectiveStateCached | backend/licensing/service.py:142-150 | answers from a snapshot younger than its lifetime, else from a fresh evaluation that becomes the snapshot |
| RequestNonces.AcceptedAtMostOnce | backend/control_plane/service.py:185-218 | with enough retention a request with given timestamp and nonce is accepted at most once in any run |
| RequestNonces.TooShortRetention | backend/control_plane/service.py:208-215 | with any less, a run that accepts one twice |
| RequestNonces.RetentionExactlyEnough | backend/control_plane/config.py:44-45 | the exact condition, for all runs: retention at least twice the tolerance plus one second plus the handler's lag |
| RequestNonces.SameAsForever | backend/control_plane/service.py:185-218 | the purged table rejects exactly the replays an unbounded set would |
| RequestNonces.AcceptedExactly | backend/control_plane/service.py:185-218 | a request is let through exactly if its time stamp is within tolerance, its signature good and its nonce not let through before |
| RequestNonces.NoneOverstays | backend/control_plane/service.py:208-214 | after a request that came as far as the table no row is kept beyond its time |
| RequestNonces.PurgeForgets | backend/control_plane/service.py:209 | it does forget: a nonce under a much later timestamp is accepted again |
| RequestNonces.NonceTable.VerifyInstallationRequest | backend/control_plane/service.py:185-218 | the tests in the program's order, with the purge before the look-up, and nothing stored unless accepted |
| Installations.LastOfKey | backend/control_plane/installation_router.py:82-90 | the newest row of the key, of the ACTIVE ones or of all |
| Installations.LatestOf | backend/control_plane/installation_router.py:364-365 | the company's newest installation |
| Installations.RowsFound | backend/control_plane/installation_router.py:146-175 | while the invariant holds each look-up finds the company's own single row, so nothing missing is ever inserted |
| Installations.RegisterKeeps | backend/control_plane/installation_router.py:93-175 | registering keeps the invariant |
| Installations.RecoverKeeps | backend/control_plane/installation_router.py:347-400 | recovery keeps the invariant |
| Installations.ActiveIsUnique | backend/control_plane/installation_router.py:82-90 | a company and a key have at most one ACTIVE installation, and the company's license points to it |
| Installations.RunKeeps | backend/control_plane/installation_router.py:93-400 | in every serial run of register, recover, revoke and edit: at most one ACTIVE per company and key, the ACTIVE one newest and where the single license points, match keys and recovery codes unique |
| Installations.EmptyStarts | backend/control_plane/service.py:139-180 | the empty directory satisfies the invariant |
| Installations.RevokingDisconnects | backend/control_plane/service.py:240-247 | revoking disconnects the company exactly when the installation is its newest, as the ACTIVE one always is |
| Installations.RevocationIsFinal | backend/control_plane/installation_router.py:364-367 | a company whose newest installation is REVOKED never has an ACTIVE one again |
| Installations.RegisterIsIdempotent | backend/control_plane/installation_router.py:98-104 | registering again with the same key creates nothing and returns the same ids |
| Installations.NewcomerFounds | backend/control_plane/installation_router.py:106-142 | a new key founds a company exactly if its match key and recovery code are free, and what is then stored |
| Installations.KnownKeyReturns | backend/control_plane/installation_router.py:98-175 | a known key gets its own ids back exactly if it has an ACTIVE row under an active license |
| Installations.RecoveryExactly | backend/control_plane/installation_router.py:347-400 | a recovery is granted exactly for the company whose code admits the key: active, not disconnected, license active, key not at work elsewhere; the key's row is then its one ACTIVE row, where its license points |
| Installations.RefusedExactly | backend/control_plane/installation_router.py:347-400 | which of the four refusals a recovery gets |
| Installations.MissingRowsAreRepaired | backend/control_plane/installation_router.py:146-175 | whoever is granted has an active license for the installation and the company a subscription with a license, even if a row was missing |
| Installations.RecoveredMayRegister | backend/control_plane/installation_router.py:98-175 | after a recovery the new computer registers with the ids it was given |
| Installations.EditExactly | backend/control_plane/installation_router.py:271-297 | a signed edit is taken from an ACTIVE installation only, and which match key the company then has |
| Installations.ReplacedKeyIsRefused | backend/control_plane/installation_router.py:143-144 | after recovery elsewhere the earlier computer cannot register back in |
| Installations.CompanyDirectory.RegisterInstallation | backend/control_plane/installation_router.py:93-185 | the new directory and the answer are those of the specification, error cases included |
| Installations.CompanyDirectory.ReplaceActive | backend/control_plane/installation_router.py:372-375 | exactly the company's ACTIVE installations become REPLACED |
| Installations.CompanyDirectory.RecoverInstallation | backend/control_plane/installation_router.py:347-407 | the new directory and the answer are those of the specification; a refusal changes nothing |
| Installations.CompanyDirectory.EditCompany | backend/control_plane/installation_router.py:271-297 | the new match key is kept only if no other ACTIVE company holds it, so an edit never makes two collide |
| Installations.CompanyDirectory.RevokeInstallation | backend/control_plane/service.py:240-247 | one status changes, or the id is unknown |
| Migrations.ClassifierIsExact | backend/control_plane/migrations_runner.py:274-321 | with the baseline tables and no recovery column, revision r is named exactly when the markers present are those of the scripts up to r |
| Migrations.RecoveryShortcut | backend/control_plane/migrations_runner.py:288-293 | with a recovery column present only recovery and binding columns are looked at |
| Migrations.RequiredIsWhatTheChainBuilds | backend/control_plane/migrations_runner.py:34-59 | the hand-written required tables and columns are exactly what the eight scripts build |
| Migrations.Classified | backend/control_plane/migrations_runner.py:274-321 | what each answer of the classifier is worth, for every schema |
| Migrations.UpgradeCompletes | backend/control_plane/alembic/versions/f3a9c1d2b7e4_c6_company_recovery.py:20-25 | from any revision the remaining scripts collide with nothing, build everything required, and keep every table, column and row |
| Migrations.PresentBlocks | backend/control_plane/alembic/versions/e1f2a3b4c5d6_c5_pairing_user_binding.py:18-22 | a script list that makes a change already there fails as a whole |
| Migrations.CountsEveryRow | backend/control_plane/migrations_runner.py:235-242 | the row total is zero exactly when every required table is empty |
| Migrations.RecognisedIsReady | backend/control_plane/migrations_runner.py:436-472 | a schema at a revision of the chain, stamped with it or unstamped, is brought to head in place |
| Migrations.StuckFails | backend/control_plane/migrations_runner.py:440-487 | the two kinds of storage no run repairs, and how each fails |
| Migrations.Rebuilds | backend/control_plane/migrations_runner.py:345-377 | a rebuild happens only over empty tables and then always ends complete at head |
| Migrations.OtherwiseRebuilds | backend/control_plane/migrations_runner.py:450-484 | every other storage is rebuilt if empty and refused if not |
| Migrations.ReadyExactly | backend/control_plane/migrations_runner.py:403-510 | a run reports ready exactly when the schema is recognised, or holds no rows and is not stuck |
| Migrations.ReadyMeansComplete | backend/control_plane/migrations_runner.py:388-400 | ready means head revision and nothing required missing, the shortcut included |
| Migrations.ArchivesOnlyEmpty | backend/control_plane/migrations_runner.py:450-484 | a run that archives had zero rows in every required table, and ends ready |
| Migrations.NothingLost | backend/control_plane/migrations_runner.py:345-377 | whatever the outcome every table is in place with its rows and columns or in the archive unchanged; one with rows is in place |
| Migrations.SecondRunRests | backend/control_plane/migrations_runner.py:436-437 | after a ready run the next one changes nothing |
| Migrations.ShortcutNeedsTwoRuns | backend/control_plane/migrations_runner.py:289-293 | a schema the shortcut accepts too early fails, keeps the head stamp, and is rebuilt by the second run exactly if it has no rows |
| MigrationRunner.Runner.CountRows | backend/control_plane/migrations_runner.py:235-242 | the total and the list of populated tables |
| MigrationRunner.Runner.UpgradeToHead | backend/control_plane/migrations_runner.py:438-448 | all pending scripts or none |
| MigrationRunner.Runner.MoveTables | backend/control_plane/migrations_runner.py:355-360 | exactly the named tables leave the schema, unchanged |
| MigrationRunner.Runner.Archive | backend/control_plane/migrations_runner.py:345-377 | what moves and what stays, in `public` and in an own schema |
| MigrationRunner.Runner.Decide | backend/control_plane/migrations_runner.py:436-487 | the decision ladder on the database gives the storage, archive, repair action and verdict of the specification |
| MigrationRunner.Runner.RunMigrations | backend/control_plane/migrations_runner.py:403-517 | a whole start-up: the report says ready exactly on success, and a failure leaves every table as it was |
| MigrationRunner.FailureKeepsTables | backend/control_plane/migrations_runner.py:454-484 | a run that fails has archived nothing and changed no table |
| RefreshTokens.OneLiveAlways | backend/routers/auth.py:108-112 | over any run of exchanges that do not overlap each family has at most one unrevoked token |
| RefreshTokens.DeadYieldsNothing | backend/routers/auth.py:95-99 | a family without an unrevoked token stays so and yields no access token |
| RefreshTokens.ReplayEndsFamily | backend/routers/auth.py:95-99 | once a revoked token is replayed its family never yields another access token (RFC 9700, section 4.14.2) |
| RefreshTokens.RowsOnlyAge | backend/routers/auth.py:77-113 | no stored token is removed, moved or revived, and each is exchanged at most once |
| RefreshTokens.SecondUseEndsFamily | backend/routers/auth.py:77-113 | whoever uses an exchanged token again while it decodes ends the family for both parties |
| RefreshTokens.LogoutEnds | backend/routers/auth.py:121-136 | a logout ends the presented token's family, or all families of the user |
| RefreshTokens.GrantedExactly | backend/routers/auth.py:77-113 | a refresh is granted exactly for a genuine, unexpired, stored, unrevoked token of an active user; a stored revoked one is a reuse |
| RefreshTokens.LoginOpensSession | backend/routers/auth.py:68-113 | a client that logs in and always presents the token it was given last, in time, gets an access token for the login and for every exchange |
| RefreshRaces.AtOnce | backend/routers/auth.py:77-113 | a refresh that commits as soon as it has read is the atomic exchange |
| RefreshRaces.OneLiveExactly | backend/routers/auth.py:91-112 | for every interleaving of refreshes, logins and logouts: at most one unrevoked token per family if and only if no exchange commits while its family has another one |
| RefreshRaces.SoundExactly | backend/routers/auth.py:91-112 | and no ended family revives as well, if and only if no exchange commits after another exchange or a revocation of its token that came since its read |
| RefreshRaces.OneLiveWithoutOverlap | backend/routers/auth.py:91-112 | as long as nothing else revokes tokens, at most one unrevoked token per family if and only if no exchange commits when another one of its token has committed since its read |
| RefreshRaces.OvertakenExactly | backend/routers/auth.py:91-112 | an exchange was overtaken exactly if its family now has another unrevoked token or none |
| RefreshRaces.TwoRefreshesRace | backend/routers/auth.py:91-112 | two overlapping refreshes of one live token leave two unrevoked tokens in its family |
| RefreshRaces.LogoutIsOutlived | backend/routers/auth.py:91-136 | a refresh that overlaps a logout puts an unrevoked token into the family the logout ended |
| RefreshTokens.TokenStore.Issue | backend/routers/auth.py:39-46 | a login adds one unrevoked token in a family of its own |
| RefreshTokens.TokenStore.Exchange | backend/routers/auth.py:77-113 | the tests in the program's order; success revokes the old token and adds its successor, reuse revokes the family |
| RefreshTokens.TokenStore.LogOut | backend/routers/auth.py:121-136 | a token that does not decode revokes nothing; otherwise its family, or without one the user's tokens |
| Throttles.AtMostLimitPerWindow | backend/routers/auth.py:52-65 | however often a client tries, no more failures than the limit are checked within one window, although old ones are forgotten |
| Throttles.LockedExactly | backend/routers/auth.py:52-57 | an attempt is locked out exactly if the last `limit` failures checked all lie within the window |
| Throttles.LimitsInUse | backend/routers/auth.py:23-57 | a login is locked out exactly after five failures in fifteen minutes, a recovery code after ten |
| Throttles.AttemptLeaves | backend/routers/auth.py:59-70 | what a right, a neutral and a wrong attempt leave in the list |
| Throttles.Throttle.Prune | backend/control_plane/installation_router.py:336-342 | the filtered list holds exactly the failures younger than the window, in order |
| Throttles.Throttle.Try | backend/control_plane/installation_router.py:332-363 | when an attempt is locked out, and what is remembered afterwards for this client and no other |
| LocationCache.OriginSurvives | backend/location_upgrade.py:45-51 | with both original coordinates known no sequence of results changes what is taken for the original point |
| LocationCache.LocatedThenLost | backend/location_upgrade.py:125-134 | with one missing, a located result followed by a failed one makes the geocoder's point the RentCast point |
| LocationCache.HistoryIndependentExactly | backend/location_upgrade.py:80-146 | the final coordinates are the last located point or the original, for every sequence of results, exactly when both originals are set |
| LocationCache.LastResultShows | backend/location_upgrade.py:80-146 | the geocoder is named as the source, and the point as resolved, exactly if the last result located the property; the row is due again exactly if it was an error |
| LocationCache.Row.StoreResult | backend/location_upgrade.py:80-146 | one stored result: coordinates, remembered original, source label and retry mark |
| LocationCache.StoreGroup | backend/location_upgrade.py:253-273 | a territory's rows each get their answer once, in batches, and are counted |
| LocationCache.RefreshLocations | backend/location_upgrade.py:234-274 | a pass gives each pending row its answer exactly once, changes no other row, counts rows, and leaves pending exactly those answered with an error |
| Geo.PointInPolygon | backend/geo.py:9-20 | the toggling loop computes the parity of the crossed ring edges |
| Geo.RotationKeepsInside | backend/geo.py:9-20 | the answer does not depend on the vertex the ring starts at |
| Geo.ClosingVertexIsIdle | backend/geo.py:9-20 | adding or dropping the repeated closing vertex changes nothing (RFC 7946, section 3.1.6) |
| Geo.EvenStraddles | backend/geo.py:14-17 | every horizontal line straddles an even number of ring edges |
| Geo.EitherRayWillDo | backend/geo.py:17-18 | counting the straddling edges on the other side gives the same answer |
| Geo.OutsideTheBand | backend/geo.py:9-20 | a point level with or above every vertex, or below every vertex, is outside |
| Geo.OutsideAllEdges | backend/geo.py:9-20 | a point on one side of all the edges it is level with is outside |
| Geo.RectangleExactly | backend/geo.py:9-20 | of a rectangle exactly the points from the western up to the eastern and from the southern up to the northern side are inside, in exact arithmetic |
| Geo.RectangleContains | backend/geo.py:76-80 | a polygon lies in a rectangle exactly if each of its vertices does |
| Geo.PolygonFullyContained | backend/geo.py:76-80 | true exactly when every vertex of the inner ring is inside the outer one |
| Geo.ContainmentIgnoresNotation | backend/geo.py:76-80 | containment does not depend on closing vertices or on where the outer ring starts |

## Left out

- RelayHubObject.RelayHub.RouteStart: futures and connections are ids in map fields, not heap objects, so aliasing of a future between two holders is not captured.
- RelayProgress.ServiceIsBounded: counts steps, not seconds; for a request still waiting for its socket send or its publish the source sets no deadline.
- RelayProgress.EndedByDeadline: that the event loop takes the steps a coroutine has left is not proved. One timeout serves all requests, as in the source's calls.
- RelayRuns.OnlyOwnerKeepsTunnel: a hub's register and one heartbeat visit are single steps; with Valkey they too await the registry in between, which is modelled for unregister only.
- RelayBroadcast.ExactlyOnce: counts frames handed to the socket; sends are taken to succeed and the bus to deliver once per subscriber.
- RelayOutbox.DeliveredMeansAccepted: the connector's HTTP calls are one step each, which may fail before or after the commit.
- RelayRegistry.LazyRefinesEager: lifetimes are exact numbers; the rounding of Valkey's millisecond expiry is not modelled.
- PropertyMerge.NothingLost: `raw`, merged external ids, canvass sections and measurement sets are not tracked.
- Subscriptions.LatestDecides: one company with a subscription; admin overrides, the log entries and the Stripe path are not modelled.
- Subscriptions.NewestDecides: a time-based transition after the deciding event can still suspend or cancel; that is TransitionAbsorbs and OnlyTheLastMatters.
- Entitlements.AccessEnds: one clock serves Control Plane and Office; evaluating and storing a snapshot is one step; seats and the other claims of a token are not modelled.
- RequestNonces.SameAsForever: requests are served one after the other, each nonce is signed with one timestamp, and the parse errors and installation look-ups that refuse a request are the one flag `authentic`.
- Installations.RunKeeps: creation times strictly increase, steps are serial, and no step changes a company's or license's own status, since no handler does; license and subscription columns other than the links are not modelled.
- Migrations.NothingLost: indexes, foreign keys, data updates inside scripts and columns that no script adds later are not modelled, and an archive name is always free.
- RefreshTokens.OneLiveAlways: exchanges are atomic here; overlapping ones are RefreshRaces.
- RefreshRaces.SoundExactly: a login and a logout are one step each; row locks taken by the database between an update and its commit only order the commits.
- Throttles.AtMostLimitPerWindow: attempts are serial and the list does not survive a restart.
- LocationCache.RefreshLocations: the geocoder's answers are a given map; diagnostics of the stored location other than coordinates, source, resolution and retry mark are not modelled.
- Geo.PointInPolygon: the crossing test of one edge is any predicate; `RectangleExactly` uses the program's formula in exact arithmetic, so rounding plays no part.
- WebSocket, HTTP, Redis and SQL plumbing, JSON text and size limits as byte counts (an oversize frame is a flag).
- Cryptography: signatures, token encoding, hashing and encryption.
- Cleaning of addresses and contacts, address tokenising; the haversine formula.
- The legacy synchronous `MemoryRegistry`, `ValkeyRegistry`'s connection handling and the installation socket's handshake.
- The `_forward` path of the tunnel client into the local Office API, and its reconnect back-off.
- Estimates, materials, maps, screens and the other request handlers: mostly I/O.
