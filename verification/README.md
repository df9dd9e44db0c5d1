# VOLTHA read-write core: a Dafny model

VOLTHA makes one OLT and the ONUs behind it look like a single OpenFlow switch. This project models the part of
its read-write core that does so, and the concurrency primitives under it, and proves what the rest of the
system relies on. `dafny verify dfyconfig.toml` checks all of it.

The components, and the files that model them:

* **Request queue** (`RequestQueueProtocol`, `RequestQueue`, `Channels`). A FIFO lock made of a chain of channels
  and an intrusive list whose waiters may cancel. The protocol is a step relation over every interleaving of
  arrivals, grants, cancellations and completions; the heap class relinks nodes and closes channels in place and
  refines the protocol step by step. Mutual exclusion and FIFO order hold for the code as written. A wakeup can be
  lost: the branch that cancels after its grant leaves its request in `last`. The failing run is `LostWakeupRun`;
  from a reachable state a wakeup can be lost exactly when some link names a request that is gone
  (`WakeupsAreSafeFromHereIff`), and with `last` repaired in that branch none is ever lost
  (`RepairedQueueLosesNoWakeup`).
* **Routes** (`PonTopology`, `PortKey`, `RouteSpec`, `DeviceRoutes`, `RouteCounting`, `RouteTheorems`,
  `LogicalAgentRoutes`). The route table with its caches, built port by port, in bulk, by copying and on demand,
  always against one declarative table over the PON topology.
* **Flow decomposition** (`OpenFlowSemantics`, `FlowDecomposition`, `DecompositionLemmas`,
  `UpstreamDecomposition`, `TrapDecomposition`, `MixedDecomposition`, `FlowInstallation`). A packet semantics
  (match, apply-actions in order, goto-table, priorities), and what the ONU and OLT flows do together: two-table
  upstream flows do what the logical flows do, traps are handed over, and with both installed the devices agree
  with the logical switch exactly when the right kind of flow comes first in the OLT's one table.
* **Device state transitions** (`TransitionTable`, `Transitions`, `DeletionGuarantee`, `TransitionSpec`). Scored
  matching with wildcards over any table, what the real table guarantees about deleting a device, and a specification
  by cases of the handlers for every change of every device, which the table is proved to meet.
* **Locked entries** (`EntryLoader`, `EntryReplay`, `PortLoader`, `LogicalPortIndex`). Two-level locking with
  tombstones and retries, mirrored to a key-value store, as a state machine over any number of threads; what it comes
  to for its callers, a plain map on which the calls are replayed; the heap class whose critical sections refine it;
  and the loader with a secondary index by device.
* **Flow tables** (`FlowUpdates`, `FlowTransaction`). Deltas against bulk lists, and adding a flow as a transaction.
* **Ordered events** (`OrderedEvents`). Port events sent in the order of their queue positions, and the drain barrier.

Conventions. Protocols with several threads are functions `Next` over a state, with `Enabled`, `Legal` runs and
`Run`; a theorem about "every run" quantifies over all legal action sequences. Iteration over Go maps is an
arbitrary choice (`:|`), so results hold for every iteration order. Port numbers and ids are unbounded naturals;
the only place where a width matters, the controller port with or without its top bit, is written out in
`LogicalAgentRoutes.IsController` and compared with the 32-bit mask in `IsControllerMasks`. Calls to the store, the adapters and the device manager appear as parameters
that say how they turned out.

Where the code and its comments disagree, the model follows the code: `isBetterMatch` says whether the receiver is
the better match; with OFPFF_RESET_COUNTS set, a replaced flow's counters are copied rather than cleared; and the
overlap check of flow additions never finds an overlap.

## Model

| member | source | states |
|---|---|---|
| RequestQueueProtocol.MutualExclusionAndFifo | rw_core/utils/request_queue.go:53-154 | For the code as written, in every state of every interleaving: no double close and no nil dereference, at most one holder and it is `current`, the grants that occur among the actions are in arrival order, nobody older still waiting |
| RequestQueueProtocol.RunKeepsSafe | rw_core/utils/request_queue.go:53-154 | The safety invariant (channels, holder, links, grant order) holds along every run, with and without the repair of `last` |
| RequestQueueProtocol.RepairedQueueLosesNoWakeup | rw_core/utils/request_queue.go:47-154 | With `last` repaired: the list from `last` is exactly the waiters in arrival order, each waits on its live predecessor's channel, and when nobody holds the lock the oldest waiter's channel, or the next arrival's, is closed |
| RequestQueueProtocol.QueueLosesNoWakeupWithoutTailCancel | rw_core/utils/request_queue.go:73-128 | The same for the code as written, along every run in which no request at the tail cancels after its grant |
| RequestQueueProtocol.WakeupsAreSafeFromHereIff | rw_core/utils/request_queue.go:53-154 | For the code as written, from every reachable state: some continuation without another tail cancel loses a wakeup if and only if some link names a request that has left the queue |
| RequestQueueProtocol.CancelAfterGrantKeepsWakeupsIffNotTail | rw_core/utils/request_queue.go:73-78 | After a cancel-after-grant from a state without such a link, a wakeup can be lost if and only if the request was `last` |
| RequestQueueProtocol.RunKeepsWoven | rw_core/utils/request_queue.go:53-154 | Along every run, also after tail cancels, waiters wait on the channels of those they follow as long as those are waiting |
| RequestQueueProtocol.DeadTailLosesWakeup | rw_core/utils/request_queue.go:79-103 | From any idle state whose `last` is gone, five ordinary actions lose the wakeup |
| RequestQueueProtocol.StuckForever | rw_core/utils/request_queue.go:106-154 | Once a wakeup is lost this way, no continuation ever grants again |
| RequestQueueProtocol.LostWakeupRun | rw_core/utils/request_queue.go:73-103 | A concrete interleaving of the steps of the code, from the initial state, that loses the wakeup |
| RequestQueue.Queue.Arrives | rw_core/utils/request_queue.go:52-64 | Enqueueing on the heap is the protocol's Arrive step and keeps the representation |
| RequestQueue.Queue.TakesGreenLight | rw_core/utils/request_queue.go:106-128 | The grant block, which unlinks the node in place, is the Proceed step |
| RequestQueue.Queue.Cancels | rw_core/utils/request_queue.go:69-104 | Both cancel branches, with their relinking and channel passing, are the Abort step |
| RequestQueue.Queue.RequestComplete | rw_core/utils/request_queue.go:134-139 | Completing is the Complete step |
| RequestQueue.Queue.ReleaseWithoutLock | rw_core/utils/request_queue.go:141-154 | Closes the current request's channel exactly once and clears `current` |
| OrderedEvents.EventsAreOrdered | rw_core/core/device/logical_agent_port.go:438-512 | In every interleaving events start in assignment order without gaps, never overlap, no channel is closed twice, and while anything is queued somebody can move |
| OrderedEvents.DrainBarrier | rw_core/core/device/logical_agent_port.go:438-512 | A caller is told that the queue is empty only after every earlier position has sent |
| OrderedEvents.SignalsAreForCompletions | rw_core/core/device/logical_agent_port.go:438-512 | Only callers that asked to be told are told, and a position they asked for notifies the next only after they have been told; which positions those are, and which have begun, is read off the actions |
| OrderedEvents.Queue.AssignQueuePosition | rw_core/core/device/logical_agent_port.go:471-482 | Replacing `last` is the Assign step |
| OrderedEvents.Queue.NotifyNext | rw_core/core/device/logical_agent_port.go:496-512 | Closing the position's own channel is the Finish step and cannot panic |
| PortKey.KeyIsInjective | rw_core/route/device_route.go:461-464 | Different device ports have different text keys, even when device ids contain colons |
| PortKey.KeyReads | rw_core/route/device_route.go:461-464 | The key reads as the device id, a colon and the port number in decimal without leading zeros |
| RouteSpec.ReverseIsInvolution | rw_core/route/device_route.go:466-473 | Reversing a route twice gives it back |
| RouteSpec.TableIsUnique | rw_core/route/device_route.go:202-207 | A table of specified routes is determined by its NNI-UNI pairs |
| RouteSpec.RoutesAreJoined | rw_core/route/device_route.go:256-264 | Every stored route has two hops joined at peer PON ports, and the reverse key stores its reverse |
| RouteSpec.CopiedIsTable | rw_core/route/device_route.go:430-448 | Copying one NNI's routes gives what building the new NNI from the topology would give |
| DeviceRoutes.GetReverseRoute | rw_core/route/device_route.go:466-473 | Computes the reverse route |
| DeviceRoutes.CopyRoutes | rw_core/route/device_route.go:431-446 | The copying loop, for every iteration order of the table |
| DeviceRoutes.Graph.UpdateCache | rw_core/route/device_route.go:516-529 | The PON caches stay true to the topology and cover the device, for every iteration order |
| DeviceRoutes.Graph.GetChildPonPort | rw_core/route/device_route.go:477-496 | Finds a PON port of the device exactly when it has one, which for an ONU is the only one |
| DeviceRoutes.Graph.GetParentPonPort | rw_core/route/device_route.go:499-514 | Finds the OLT port of an ONU exactly when one lists it |
| DeviceRoutes.Graph.AddUNIPort | rw_core/route/device_route.go:232-266 | Succeeds exactly when the ONU is attached, and then adds exactly the pairs with the NNIs passed in |
| DeviceRoutes.Graph.AddNNIPort | rw_core/route/device_route.go:269-325 | Adds exactly the pairs with the attached UNIs passed in, and records the ports |
| DeviceRoutes.Graph.AddPort | rw_core/route/device_route.go:219-229 | The table afterwards is exactly the pairs before plus those of the port |
| DeviceRoutes.Graph.CopyFromExistingNNIRoutes | rw_core/route/device_route.go:430-448 | Replaces the table by one with the new NNI paired with every UNI of the old one |
| DeviceRoutes.Graph.ComputeRoutes | rw_core/route/device_route.go:128-215 | Which errors leave what; on success exactly the pairs of one or two chosen NNIs with all attached UNIs |
| DeviceRoutes.Graph.GetRoute | rw_core/route/device_route.go:90-121 | Cached routes are returned; otherwise what is built, under which keys it is cached, and what is answered, including the failures |
| DeviceRoutes.Graph.GetHalfRoute | rw_core/route/device_route.go:390-417 | For an NNI as egress, some route to that NNI, or to any if none is named, gives its second hop; otherwise some route from the ingress gives its first; it fails exactly when there is none |
| DeviceRoutes.Graph.IsUpToDate | rw_core/route/device_route.go:368-380 | The counts compared, and the empty-table case for nil ports |
| RouteTheorems.AnyOrderBuildsAllPairs | rw_core/route/device_route.go:219-325 | A sequence of AddPort calls gives the whole table if and only if no routable pair missed each other |
| RouteTheorems.AddPortsOneByOne | rw_core/route/device_route.go:219-325 | Ports added one by one, any number and any order, give exactly the declarative table |
| RouteTheorems.BulkIsCompleteIff | rw_core/route/device_route.go:162-169 | The bulk build is complete if and only if there are at most two NNIs or nothing to connect |
| RouteTheorems.BulkEqualsIncremental | rw_core/route/device_route.go:128-215 | With one or two NNIs, adding all ports one by one in any order and computing all routes end in the very same table |
| RouteTheorems.CheckUpToDate | rw_core/route/device_route.go:368-380 | What isUpToDate answers for any recorded root ports: with all NNIs recorded, exactly whether every NNI is routed with every UNI; with none, as after AddUNIPort alone, any route makes it false |
| RouteCounting.TwoRoutesPerPair | rw_core/route/device_route.go:368-380 | A table of specified routes has exactly two keys for every pair |
| RouteCounting.CountIsExact | rw_core/route/device_route.go:368-380 | For keys within NNI x UNI and back, the count is 2 * NNIs * UNIs exactly when every pair is routed both ways |
| RouteCounting.UpToDateIsExact | rw_core/route/device_route.go:368-380 | The same for a table of specified routes with recorded ports and root ports |
| RouteTheorems.OnDemandAgreesIff | rw_core/route/device_route.go:112-119 | A route built on demand is the specified one and extends the table by its pair if and only if the UNI's device and logical numbers coincide; otherwise the answer is the empty route |
| RouteTheorems.OnDemandAgreesForAgentPorts | rw_core/core/device/logical_agent_port.go:370-380 | The numbers coincide for the ports the logical agent creates |
| RouteTheorems.UniHalfRouteIsUnique | rw_core/route/device_route.go:409-414 | From a UNI the half route is the same for every iteration order |
| RouteTheorems.NniHalfRouteIsUniqueIff | rw_core/route/device_route.go:409-414 | From an NNI it is the same if and only if all its UNIs share a PON port |
| LogicalAgentRoutes.RouteUp | rw_core/core/device/logical_agent_route.go:84-85 | An upstream question is answered by the specified route exactly when it is cached or both ports are recorded and the ONU is attached, and the table stays specified |
| LogicalAgentRoutes.RouteDown | rw_core/core/device/logical_agent_route.go:84-85 | The same downstream |
| LogicalAgentRoutes.TrapOnNni | rw_core/core/device/logical_agent_route.go:39-56 | With no routes both hops are the NNI itself, otherwise the first hop of a cached route |
| LogicalAgentRoutes.GetAnyNNIPort | rw_core/core/device/logical_agent_port.go:535-540 | Finds an NNI exactly when there is one |
| LogicalAgentRoutes.IsControllerMasks | rw_core/core/device/logical_agent_route.go:37-37 | For every 32-bit port number, meaning the controller is what masking the top bit tests |
| LogicalAgentRoutes.GetRoute | rw_core/core/device/logical_agent_route.go:30-86 | The whole case split over any recorded ports: controller, half routes, full routes, and the route that a question between two UNIs gets, with what each answer or failure means |
| LogicalAgentRoutes.NoRouteBetweenUnis | rw_core/route/device_route.go:531-552 | A specified table has no route between two UNIs, so caching the one above spoils it |
| OpenFlowSemantics.LookupSimulation | rw_core/flowdecomposition/flow_decomposer.go:54-70 | Looking up among the images of flows finds the image of the flow that is found in the original |
| FlowDecomposition.RedirectFlows | rw_core/flowdecomposition/flow_decomposer.go:85-102 | Exactly the flows with one of the four trap fields, which DecompositionLemmas.TrapFieldMeansTrapPackets ties to packets, get all outputs sent to the controller |
| FlowDecomposition.UpdateOutputPort | rw_core/flowdecomposition/flow_decomposer.go:74-107 | Only the root device's flows are redirected, and only if it can be looked up, for every iteration order |
| FlowDecomposition.DecomposeFlow | rw_core/flowdecomposition/flow_decomposer.go:463-542 | Fails exactly on a missing or malformed route or an ingress device that cannot be looked up; otherwise the rules per device, redirected or not |
| FlowDecomposition.RulesKeepAttributes | rw_core/flowdecomposition/flow_decomposer.go:155-162 | Every device gets at most one flow, in its one table, with the logical flow's priority and cookie; from a UNI with its metadata and meter, except that the OLT's trap flow has the meter that the metadata names whenever it names one; a trap of an NNI has neither |
| FlowDecomposition.DevicesWithFlows | rw_core/flowdecomposition/flow_decomposer.go:239-304 | Which devices get a flow at all, for every flow, by table, goto and first output |
| DecompositionLemmas.TrapFieldMeansTrapPackets | rw_core/flowdecomposition/flow_decomposer.go:75-96 | For a match that some packet meets, having one of the fields that are looked for means that every packet it matches is EAPOL, PPPoE discovery, IGMP or UDP, and the other way round |
| DecompositionLemmas.FlowsMatchOnlyTheirPath | rw_core/flowdecomposition/flow_decomposer.go:161-180 | Isolation: whatever packet reaches a device, a compiled flow matches it only if it entered at the port of the flow's path, and with the tunnel of the flow's UNI unless it is a trap of an NNI |
| DecompositionLemmas.CompiledMatch | rw_core/flowdecomposition/flow_decomposer.go:257-288 | The compiled match on the device packet is the logical match on the logical packet |
| DecompositionLemmas.MovedOutputAgreesIff | rw_core/flowdecomposition/flow_decomposer.go:290-293 | Moving the output to the end sends the same packet if and only if the actions after it leave its headers alone |
| DecompositionLemmas.MovedOutputIsHarmlessIff | rw_core/flowdecomposition/flow_decomposer.go:290-293 | If nothing after the output pops a tag, moving it is harmless for every packet if and only if no action after it pushes a tag or sets a header |
| DecompositionLemmas.MovedOutputTagsPacket | rw_core/flowdecomposition/flow_decomposer.go:290-293 | A concrete flow whose packet is tagged by moving the output |
| UpstreamDecomposition.RoutesHaveTheseHops | rw_core/flowdecomposition/flow_decomposer.go:248-249 | The hops used for compiling are those of the route table |
| UpstreamDecomposition.OnuLookup | rw_core/flowdecomposition/flow_decomposer.go:251-277 | Looking a UNI's packet up in table 0 is looking it up at its ONU |
| UpstreamDecomposition.OltLookup | rw_core/flowdecomposition/flow_decomposer.go:278-302 | Looking it up in table 1 is looking it up at the OLT |
| UpstreamDecomposition.UpstreamPreservesMeaning | rw_core/flowdecomposition/flow_decomposer.go:239-304 | For any set of two-table upstream flows and any packet of any UNI: the logical switch and the devices both send nothing, or both send one packet with the same headers, to the NNI or, if the table 1 flow is for packets of the four trapped protocols, to the controller |
| UpstreamDecomposition.UpstreamIsExactIff | rw_core/flowdecomposition/flow_decomposer.go:74-107 | The devices send exactly what the logical switch sends if and only if no table 1 flow that is for packets of the four trapped protocols is met |
| TrapDecomposition.OltMatches | rw_core/flowdecomposition/flow_decomposer.go:161-180 | What the ONU passes on matches the OLT's trap flow exactly when the VLAN priorities agree |
| TrapDecomposition.TrapHandOff | rw_core/flowdecomposition/flow_decomposer.go:143-229 | For any trap flow and packet of a UNI: it leaves the OLT exactly when the logical flow matches and the priorities agree, tagged as the flow says, to the controller if and only if every packet that the flow matches is EAPOL, PPPoE discovery, IGMP or UDP |
| TrapDecomposition.NniTrapSends | rw_core/flowdecomposition/flow_decomposer.go:121-141 | A trap on an NNI, whatever its actions, sends what the logical flow's actions send, all of it to the controller if the flow is for packets of the four trapped protocols |
| TrapDecomposition.PcpLosesPackets | rw_core/flowdecomposition/flow_decomposer.go:193-202 | A concrete flow that sets VLAN id and priority and a packet that it loses |
| MixedDecomposition.MixedSends | rw_core/flowdecomposition/flow_decomposer.go:143-302 | For any mix of two-table and trap flows and any packet of any UNI: what the devices send, decided by the best of the table 1 flows and the OLT parts of all traps |
| MixedDecomposition.WinnerIs | rw_core/flowdecomposition/flow_decomposer.go:161-188 | Whether a trap or a table 1 flow is chosen at the OLT, by priority and order |
| MixedDecomposition.TrappedIff | rw_core/flowdecomposition/flow_decomposer.go:143-229 | A packet that the logical switch traps reaches the controller if and only if a trap comes before every table 1 flow that matches what the ONU passes on |
| MixedDecomposition.ForwardedIff | rw_core/flowdecomposition/flow_decomposer.go:239-304 | For a packet that goes on to table 1 the devices send exactly what the logical switch sends if and only if no trap comes before those flows |
| MixedDecomposition.TrapIsOutranked | rw_core/flowdecomposition/flow_decomposer.go:181-188 | A concrete trap and table 1 flow, and an EAPOL packet that the logical switch traps and the devices forward |
| FlowInstallation.PathFor | rw_core/flowdecomposition/flow_decomposer.go:466-493 | The agent's route for a flow's ports is the path that the flow is compiled for |
| FlowInstallation.DecomposeRules | rw_core/flowdecomposition/flow_decomposer.go:54-70 | Asking for each flow's route, compiling and merging, in any order, gives every device exactly what the flows contribute to it, and succeeds when the agent answers and ONUs can be looked up |
| Transitions.ShiftsDoNotOverlap | rw_core/core/device/state/transitions.go:53-55 | Shifting and or-ing the levels is the weighted sum used as the score |
| Transitions.ScoresAreLexicographic | rw_core/core/device/state/transitions.go:53-66 | Scores compare lexicographically by transient, admin, oper and conn, and are equal only for equal matches |
| Transitions.GetTransitionHandler | rw_core/core/device/state/transitions.go:489-527 | For every table: the first own-type full match, else the last full match for any type, else the first of maximal score, else nothing; nothing for no change |
| Transitions.ChoiceIsUniqueMaximum | rw_core/core/device/state/transitions.go:506-526 | That choice is unique and has maximal score |
| Transitions.ProcessTransition | rw_core/core/device/state/transitions.go:529-558 | The chosen handlers run in order and stop at the first that fails |
| DeletionGuarantee.AllAreEntries | rw_core/core/device/state/transitions.go:115-404 | What each of the 48 entries says about deletion |
| DeletionGuarantee.FinalDeletionRunsPostDelete | rw_core/core/device/state/transitions.go:146-181 | Into a final deletion, from any states, the short list is chosen exactly when the device is preprovisioned before and after, otherwise the long list; both end in RunPostDeviceDelete |
| DeletionGuarantee.WaitingForAdapterRunsNothing | rw_core/core/device/state/transitions.go:182-187 | DELETING_FROM_ADAPTER always chooses the empty list |
| DeletionGuarantee.OnlyFinalDeletionRunsPostDelete | rw_core/core/device/state/transitions.go:417-558 | No other transient state ever chooses RunPostDeviceDelete |
| DeletionGuarantee.HandlersFitDeviceType | rw_core/core/device/state/transitions.go:511-515 | Whatever the states, an OLT never gets a handler for ONUs, nor an ONU one for OLTs |
| DeletionGuarantee.ProcessDeviceTransition | rw_core/core/device/state/transitions.go:529-558 | RunPostDeviceDelete runs only in, and unless a handler fails always in, a change into a final deletion |
| TransitionSpec.HandlersAreExpected | rw_core/core/device/state/transitions.go:115-404 | For every change of every device, the chosen entry's handlers, in order, are exactly those of a specification by cases on the states, and nothing is chosen exactly when it says so |
| TransitionSpec.RunTransition | rw_core/core/device/state/transitions.go:529-558 | Running a change runs the handlers of that specification in order, all of them unless one fails |
| TransitionSpec.SteadyScore | rw_core/core/device/state/transitions.go:460-485 | Entries for one admin and transient state rank by their operational, then connection level |
| TransitionSpec.LogicalDeviceIsDeletedIff | rw_core/core/device/state/transitions.go:194-205 | Exactly which changes delete an OLT's logical device: rebooting while enabled, and which of the disabled and reconciling ones |
| TransitionSpec.TeardownIsComplete | rw_core/core/device/state/transitions.go:194-205 | Whenever the logical device is deleted, logical ports, child devices and meters go before it and flows after it, cleaned up first when reconciling, and the transient state is cleared last exactly for a reboot in progress |
| TransitionSpec.TransientStateIsClearedIff | rw_core/core/device/state/transitions.go:194-199 | The transient state is cleared exactly for a reboot in progress of an OLT that stays enabled |
| TransitionSpec.LogicalDeviceIsCreatedIff | rw_core/core/device/state/transitions.go:115-404 | Exactly which changes create an OLT's logical device |
| TransitionSpec.UniPortsAreSetUpIff | rw_core/core/device/state/transitions.go:122-145 | UNI ports are set up if and only if an ONU is enabled before and after, active now, and no transient state is left |
| TransitionSpec.ReconcilingIsCleanedUpIff | rw_core/core/device/state/transitions.go:308-404 | Exactly which changes clean up reconciling |
| TransitionSpec.InvalidIsNotifiedIff | rw_core/core/device/state/transitions.go:242-307 | Exactly which changes are reported as invalid |
| TransitionSpec.FailedOltGetsLogicalDevice | rw_core/core/device/state/transitions.go:218-223 | An enabled and reachable OLT that fails has its logical device created |
| EntryLoader.Load | rw_core/core/device/port/loader.go:54-68 | Establishes the invariant unless listing failed over a store that is not empty |
| EntryLoader.RunKeepsInv | rw_core/core/device/port/loader.go:70-172 | The invariant over threads, chunks, map and store holds along every run whose updates keep the entry's id |
| EntryLoader.KvAgreement | rw_core/core/device/port/loader.go:70-164 | In every reachable state an unmapped id is not stored, and an entry that is unlocked or held through a handle is stored as it is |
| EntryLoader.HandleExclusivity | rw_core/core/device/flow/cache.go:49-133 | At most one handle per id, on the mapped chunk, not deleted, with its lock held |
| EntryLoader.LocksAreGivenBackOnce | rw_core/core/device/flow/cache.go:115-133 | Every lock taken is given back exactly once, also when Delete and Unlock are both called or Unlock twice |
| EntryLoader.NeverStuck | rw_core/core/device/flow/cache.go:49-94 | While some thread is not finished, some thread can take a step |
| EntryLoader.CacheGuarantees | rw_core/core/device/flow/cache.go:41-133 | All of these for the flow cache from its creation |
| EntryLoader.RetryNeverMeetsTheSameChunk | rw_core/core/device/flow/cache.go:67-91 | A thread that finds a tombstone never waits for, locks or holds that chunk again |
| EntryLoader.UpdateKeepsAgreementIff | rw_core/core/device/port/loader.go:143-149 | Update and unlock keep the store in agreement if and only if the update keeps the entry's id; what an update leaves is EntryReplay's |
| EntryReplay.ContentsAreReplayed | rw_core/core/device/port/loader.go:70-164 | In every reachable state the mapped entries are those of a plain map on which the calls are replayed: a create maps the entry asked for, a successful update replaces it, a delete or failed create takes it out |
| EntryReplay.StoreIsReplayed | rw_core/core/device/port/loader.go:70-164 | The store holds what replaying the successful store calls gives |
| EntryReplay.UnlockedEntryIsLastWritten | rw_core/core/device/port/loader.go:70-164 | An entry that is unlocked or held through a handle is, in chunk and store, what the last successful create or update of its id made it, or what was loaded |
| EntryReplay.LockGivesUpIff | rw_core/core/device/port/loader.go:112-119 | Lock gives up exactly when the id is not mapped, otherwise it goes for the chunk mapped there |
| EntryReplay.HandleIfStillMapped | rw_core/core/device/port/loader.go:121-126 | A thread that has locked a chunk gets a handle exactly when the chunk is still the mapped one, and otherwise unlocks and retries |
| PortLoader.Loader.Find | rw_core/core/device/port/loader.go:112-119 | The map lookup refines its step |
| PortLoader.Loader.AcquireLock | rw_core/core/device/port/loader.go:121-121 | Locking the chunk refines its step |
| PortLoader.Loader.CheckDeleted | rw_core/core/device/port/loader.go:122-126 | A handle exactly if there is no tombstone, otherwise back to the map |
| PortLoader.Loader.FindOrCreate | rw_core/core/device/port/loader.go:78-98 | The mapped chunk, or a new one that is mapped and locked |
| PortLoader.Loader.StoreNew | rw_core/core/device/port/loader.go:86-96 | With success a handle, and the store holds the chunk's port; without, the store is as before |
| PortLoader.Loader.RevertMap | rw_core/core/device/port/loader.go:87-90 | Taking a chunk that could not be stored out of the map |
| PortLoader.Loader.DiscardChunk | rw_core/core/device/port/loader.go:92-94 | Leaving a tombstone and unlocking |
| PortLoader.Loader.UpdateEntry | rw_core/core/device/port/loader.go:143-149 | With success the chunk and the store hold the new port, for any port; without, both are as before; the invariant holds afterwards if the port keeps its id |
| PortLoader.Loader.RemoveEntry | rw_core/core/device/port/loader.go:152-156 | Removing from the store and leaving a tombstone, with and without success |
| PortLoader.Loader.UnmapEntry | rw_core/core/device/port/loader.go:158-160 | Taking the deleted chunk out of the map |
| PortLoader.Loader.UnlockHandle | rw_core/core/device/port/loader.go:167-172 | Unlocking once; again, or after Delete, has no effect |
| LogicalPortIndex.StepKeepsExactIff | rw_core/core/device/logical_port/loader.go:54-132 | A create, update or delete keeps the index exact if and only if it does not move a port to another number or device |
| LogicalPortIndex.LookupRefinesFilter | rw_core/core/device/logical_port/loader.go:157-185 | After any such sequence looking a device up is filtering all ports by it, and there are no empty buckets |
| LogicalPortIndex.Loader.CreateIfMissing | rw_core/core/device/logical_port/loader.go:54-79 | Exactly when the number is not mapped, the port is added under it and indexed |
| LogicalPortIndex.Loader.Replace | rw_core/core/device/logical_port/loader.go:116-119 | The port at that number is replaced and nothing else; the index stays exact exactly when number and device stay |
| LogicalPortIndex.Loader.Remove | rw_core/core/device/logical_port/loader.go:122-132 | Exactly that port leaves the map, and the index with it |
| LogicalPortIndex.Loader.ListIDs | rw_core/core/device/logical_port/loader.go:146-155 | A copy of all ids |
| LogicalPortIndex.Loader.ListIDsForDevice | rw_core/core/device/logical_port/loader.go:158-168 | The ids that filtering by device gives, also for an unknown device |
| FlowUpdates.Agent.ListDeviceFlows | rw_core/core/device/agent_flow.go:37-47 | The list rebuilds the cache, for every iteration order |
| FlowUpdates.Agent.AddFlows | rw_core/core/device/agent_flow.go:49-137 | Errors leave the cache; otherwise every id holds the last of the flows with it or what it had, an adapter that held the old cache holds the new one after the message, bulk or delta, duplicates included; a delta adds only flows that were new in their turn and accounts for every flow, replaced ones being removed; nothing is sent exactly when nothing is new |
| FlowUpdates.Agent.UpdateFlows | rw_core/core/device/agent_flow.go:290-379 | The ids stay the same; each holds the last updated flow with it or what it had; with deltas, replaced flows are removed and their new forms added, and something is sent exactly when some flow was known; the adapter follows |
| FlowUpdates.Agent.DeleteFlows | rw_core/core/device/agent_flow.go:222-288 | Exactly the ids named are gone, the rest is untouched, a delta names the whole request, and the adapter follows |
| FlowUpdates.Serve | rw_core/core/device/agent_flow.go:49-379 | Over any run of requests the cache is what the requests make of it one by one, and an adapter that gets every message holds it throughout |
| FlowUpdates.AddAllHoldsLast | rw_core/core/device/agent_flow.go:78-103 | Adding flows in order leaves, at every id, the last flow with it, or what was there |
| FlowUpdates.ReplaceOne | rw_core/core/device/agent_flow.go:88-96 | Adding an old form to the removals and a new form to the additions replaces the flow |
| FlowUpdates.BalanceReplaces | rw_core/core/device/agent_flow.go:88-96 | Conservation: what was there and is added stays equal, with multiplicity, to what is there now and is removed |
| FlowTransaction.RevertRestoresIff | rw_core/core/device/logical_agent_flow.go:104-261 | For every table, flow and flags, add and revert restore the table if and only if it is not an add with the overlap flag over an existing entry |
| FlowTransaction.OverlapFlagLosesEntry | rw_core/core/device/logical_agent_flow.go:118-142 | A concrete add with the overlap flag whose revert loses the entry that was there |
| FlowTransaction.LogicalAgent.DecomposeAndAdd | rw_core/core/device/logical_agent_flow.go:104-189 | An error leaves the table exactly as before; otherwise the new flow is stored with its content and its counters, or the replaced flow's with the reset flag, every other id is as before, the overlap flag leaves an existing entry, and what the revert will be told |
| FlowTransaction.LogicalAgent.RevertAddedFlows | rw_core/core/device/logical_agent_flow.go:234-261 | Puts the replaced flow back or deletes the added one |
| FlowTransaction.RevertAfterEditsIff | rw_core/core/device/logical_agent_flow.go:189-261 | For every table, flow, flags and later edits: the revert leaves what the edits alone would have left if and only if the last edit of the flow's id is a deletion or put back what was replaced, or there is none and it is not an overlap add over an existing entry |
| FlowTransaction.AddThenRevert | rw_core/core/device/logical_agent_flow.go:189-212 | The same on the agent: add, other requests once the handle is unlocked, revert |

## Left out

- gRPC, Kafka, the store and adapter clients, probes, logging, configuration and timers: plumbing with no invariant of its own.
- FlowDecomposition.DecomposeFlow: downstream and multicast flows and flows without an in-port (wildcard traps); it covers flows of a UNI upstream, and traps of a UNI or an NNI.
- Match on and effect of pipeline metadata: write-metadata is carried through to the device flows but is not part of the packet semantics.
- Meters: `SetMeterIdToFlow` changes the logical flow's meter in place; the model only computes the OLT's meter. Flow counts of meters are computed and dropped by the source.
- Flow ids are hashes in the source and plain numbers here, so collisions are not modelled.
- RouteTheorems.AddPortsOneByOne: the topology is fixed while routes are built, every device whose port is added exists, ports are well formed (`PonTopology.WellFormed`, `Registered`), and the logical ports listed for a call include those added before.
- DeviceRoutes.Graph.ComputeRoutes: the deferred reset on error tests a variable that is never assigned, so it is not part of the model; AddAllPorts is a loop over AddPort and is not modelled.
- UpstreamDecomposition.UpstreamPreservesMeaning: table 1 flows end with their one output (`DecompositionLemmas.MovedOutputIsHarmlessIff` says when another position is harmless), and there are no traps (`MixedDecomposition` adds them).
- MixedDecomposition.TrappedIff: traps match one of the four protocols and table 1 flows do not; `MixedDecomposition.MixedSends` has no such condition.
- TrapDecomposition.TrapHandOff: the devices hold the rules of this one flow; `MixedDecomposition` is about several.
- DecompositionLemmas.MovedOutputIsHarmlessIff: actions after the output that pop a tag, which may undo a push.
- EntryLoader.KvAgreement: Load is called once, failed store calls have no effect, and updates keep the entry's id; `EntryLoader.UpdateKeepsAgreementIff` says why the last is needed. Setting the store and the chunk in Update is one step.
- EntryLoader.NeverStuck: a thread holds one handle at a time.
- FlowTransaction.AddThenRevert: other requests appear as their effect on the table, and the revert itself is one step.
- FlowUpdates.Serve: every message arrives, in the order sent.
- RequestQueueProtocol.MutualExclusionAndFifo: each caller calls RequestComplete exactly once after it has been given the green light.
- The group cache and the meter loader: the same algorithm as the flow cache and the port loader.
- Device agents' own use of the request queue, reconciling with its retries, image downloads: timing and remote behaviour dominate.
