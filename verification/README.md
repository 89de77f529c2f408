# EIGRP routing process of the iterative dataplane

This project models Batfish's per-VRF EIGRP routing process (`EigrpRoutingProcess`), as the
iterative dataplane engine drives it:

- construction;
- initialization from the VRF's interfaces;
- topology updates, which rebuild the per-edge message queues;
- one iteration:
  - flush the initialization delta;
  - drain the internal queues into the internal RIB and send the change on;
  - flush the routes queued for redistribution;
  - drain the external queues into the external RIB and send the change on;
  - import both changes into the combined EIGRP RIB, producing the updates for the main RIB;
- redistribution of main-RIB changes into the external RIB, through the export policy;
- the dirtiness test the engine uses to detect convergence.

The model is purely functional:

- A process is an immutable `ProcessState` (`process.dfy`).
- The whole snapshot is a map from `(hostname, VRF, AS)` to process states (`dataplane.dfy`).
- Sending to a neighbour appends to that neighbour's queue in the map.
- The code this component calls but does not contain comes in through `Env`, as uninterpreted functions:
  - metric accumulation;
  - the RIBs' preference between two routes;
  - interface lookup by neighbour id;
  - routing-policy evaluation.
- The RIBs follow an assumed contract (`rib.dfy`):
  - one best route per network;
  - merge and remove report the change they made as an ordered delta.
- Every RIB change is tied to its delta by `Replay`. `Replay` is an independent definition of what a delta means: replay it front to back onto the old RIB and you get the new one.
- Errors the Java code raises become `Failure` values:
  - a missing neighbour process (`IllegalStateException`);
  - a missing queue (the `assert` in the enqueue methods);
  - a missing interface, EIGRP settings or address (`NullPointerException`);
  - a route built without a metric.

Files:

- `wrappers.dfy`: `Option`, `Result`.
- `collections.dfy`: duplicate-free sequences, and a fixed enumeration of a set.
- `types.dfy`: prefixes, metrics, interfaces, neighbour ids, edges, routes, advertisements, errors.
- `topology.dfy`: the EIGRP topology graph.
- `rib.dfy`: the assumed RIB contract and delta replay.
- `process.dfy`: one process and the operations that touch only it.
- `dataplane.dfy`: delivery between processes, and a whole iteration.

## Model

| member | source | states |
|---|---|---|
| EigrpProcess.NewProcess | projects/batfish/src/main/java/org/batfish/dataplane/ibdp/EigrpRoutingProcess.java:94-115 | A new process stores the configured AS, VRF name, admin costs and export policy, and has empty RIBs, no interfaces, the empty topology, no queues and nothing pending. It is valid and not dirty. |
| EigrpProcess.IsDirtyExactly | projects/batfish/src/main/java/org/batfish/dataplane/ibdp/EigrpRoutingProcess.java:194-201 | A process is dirty if and only if one of these holds: some internal queue is non-empty, some external queue is non-empty, or the change set, the redistribution queue or the initialization delta is non-empty. |
| EigrpProcess.AnyPending | projects/batfish/src/main/java/org/batfish/dataplane/ibdp/EigrpRoutingProcess.java:196-197 | Some listed queue holds a message if and only if the queue at some listed key is non-empty. |
| EigrpProcess.Registered | projects/batfish/src/main/java/org/batfish/dataplane/ibdp/EigrpRoutingProcess.java:209-217 | An interface is registered if and only if it is active, has EIGRP settings, is in the process's AS and is enabled. |
| EigrpProcess.NeighborIdOf | projects/batfish/src/main/java/org/batfish/dataplane/ibdp/EigrpRoutingProcess.java:217 | The registered id carries the interface's EIGRP AS, the router's hostname, and the interface's VRF and name. |
| EigrpProcess.InitOps | projects/batfish/src/main/java/org/batfish/dataplane/ibdp/EigrpRoutingProcess.java:219-232 | Initialization merges one announcement per subnet of every eligible interface. Each carries that interface's metric, the internal admin cost, the process AS and no next hop. No other announcement is merged. |
| EigrpProcess.InterfaceOps | projects/batfish/src/main/java/org/batfish/dataplane/ibdp/EigrpRoutingProcess.java:219-232 | An interface announces one route per distinct subnet, each the initialization route of that subnet, and no two for the same network. |
| EigrpProcess.Initialize | projects/batfish/src/main/java/org/batfish/dataplane/ibdp/EigrpRoutingProcess.java:207-236 | Only the interfaces, the internal RIB and the initialization delta change. Exactly the eligible interfaces are appended. The delta exactly records the internal RIB's change. Every route the delta announces is an interface subnet route. |
| EigrpProcess.InitializeFresh | projects/batfish/src/main/java/org/batfish/dataplane/ibdp/EigrpRoutingProcess.java:207-236 | Assume an empty internal RIB and disjoint interface subnets. Then every subnet's route is installed, and the delta holds exactly one announcement per subnet. |
| EigrpProcess.InitializeMakesDirty | projects/batfish/src/main/java/org/batfish/dataplane/ibdp/EigrpRoutingProcess.java:117-120 | A fresh process, whose internal RIB is empty as the constructor leaves it, is dirty after initialization with at least one eligible subnet. This holds also when several eligible interfaces share a subnet. |
| EigrpProcess.InitializeCoversSubnets | projects/batfish/src/main/java/org/batfish/dataplane/ibdp/EigrpRoutingProcess.java:207-236 | After initialization every network the internal RIB held is still there, and every subnet of every eligible interface is in the internal RIB. |
| EigrpProcess.UpdateQueues | projects/batfish/src/main/java/org/batfish/dataplane/ibdp/EigrpRoutingProcess.java:396-408 | Both queue maps are keyed by exactly the topology's in-edges of the registered interfaces that are topology nodes. The two maps have identical keys. Every queue is empty, and nothing else changes. |
| EigrpProcess.UpdateTopology | projects/batfish/src/main/java/org/batfish/dataplane/ibdp/EigrpRoutingProcess.java:122-131 | The topology is recorded and no queued message survives. The RIBs are unchanged, so routes are neither re-sent nor withdrawn. Afterwards the process is dirty only if it has pending deltas. |
| EigrpProcess.ComputeExportRoute | projects/batfish/src/main/java/org/batfish/dataplane/ibdp/EigrpRoutingProcess.java:339-366 | There is no export when there is no policy or the policy rejects. When the policy accepts, the route has: the policy's metric, the source's network, the external admin cost, the process AS, the non-routing flag, and the destination AS kept from an external EIGRP source (otherwise the process AS). Building fails exactly when the accepted draft has no metric. |
| EigrpProcess.DefaultMetricOnlyFromEigrp | projects/batfish/src/main/java/org/batfish/dataplane/ibdp/EigrpRoutingProcess.java:343-346 | Under a policy that accepts without rewriting, an EIGRP source is exported with its own metric. A non-EIGRP source has no metric to export with. |
| EigrpProcess.ExportOps | projects/batfish/src/main/java/org/batfish/dataplane/ibdp/EigrpRoutingProcess.java:177-189 | Every operation requested carries the external admin cost, the process AS and the non-routing flag. There are never more operations than main-RIB entries, and none when there is no export policy. |
| EigrpProcess.ExportOpsOne | projects/batfish/src/main/java/org/batfish/dataplane/ibdp/EigrpRoutingProcess.java:181-189 | A one-entry delta fails exactly when computing its export route fails. An exported entry asks for its export route, withdrawn exactly when the entry is. An entry the policy does not export asks for nothing. |
| EigrpProcess.ExportOpsAt | projects/batfish/src/main/java/org/batfish/dataplane/ibdp/EigrpRoutingProcess.java:177-190 | Each entry's operations sit between those of the entries before it and those of the entries after it. The whole fails exactly when one of the three parts fails. |
| EigrpProcess.ExportOpsConcat | projects/batfish/src/main/java/org/batfish/dataplane/ibdp/EigrpRoutingProcess.java:177-190 | The operations of a concatenated delta are the operations of its parts, concatenated. The whole fails exactly when a part fails. |
| EigrpProcess.ExportOpsExactly | projects/batfish/src/main/java/org/batfish/dataplane/ibdp/EigrpRoutingProcess.java:177-190 | Building the operations succeeds exactly when every entry's export route can be computed. Then every exported entry asks for its export route, withdrawn exactly when the entry is. |
| EigrpProcess.ExportOpsIgnoresExternal | projects/batfish/src/main/java/org/batfish/dataplane/ibdp/EigrpRoutingProcess.java:177-190 | The requested operations depend neither on the external RIB nor on what was queued before. |
| EigrpProcess.IgnoredEntryContributesNothing | projects/batfish/src/main/java/org/batfish/dataplane/ibdp/EigrpRoutingProcess.java:181-184 | A main-RIB entry the policy does not export can be dropped from the delta without changing the result. |
| EigrpProcess.Redistribute | projects/batfish/src/main/java/org/batfish/dataplane/ibdp/EigrpRoutingProcess.java:175-192 | Only the external RIB and the redistribution queue change. Redistribution succeeds exactly when every entry's export route can be computed. The external RIB is then what applying the requested merges and removes, in delta order, makes of it. The queue is exactly the change that application reports, and it replaces what was queued before. Without an export policy the queue is emptied. |
| EigrpProcess.RedistributeReplacesPending | projects/batfish/src/main/java/org/batfish/dataplane/ibdp/EigrpRoutingProcess.java:191 | The previous redistribution queue has no influence on the result: it is replaced, not extended. |
| EigrpProcess.RedistributeSplit | projects/batfish/src/main/java/org/batfish/dataplane/ibdp/EigrpRoutingProcess.java:175-191 | Redistributing a concatenated delta succeeds exactly when redistributing the first part, then the second, does. It gives the same external RIB, and a queue that is the two queues concatenated. |
| EigrpProcess.InternalLinkOf | projects/batfish/src/main/java/org/batfish/dataplane/ibdp/EigrpRoutingProcess.java:244-247 | Looking up an edge succeeds exactly when the receiving interface exists and has EIGRP settings, and the neighbour's interface exists and has an address. The connecting metric is the receiving interface's, and the next hop is the neighbour's address. The neighbour metric is present exactly when the neighbour's interface has EIGRP settings. Each failure names the missing interface, settings or address. |
| EigrpProcess.InternalOp | projects/batfish/src/main/java/org/batfish/dataplane/ibdp/EigrpRoutingProcess.java:251-261 | A received message becomes an operation with the same withdrawal flag and network. It has the metric accumulated over the edge, the internal admin cost, the process AS and the neighbour's address as next hop. |
| EigrpProcess.InternalOps | projects/batfish/src/main/java/org/batfish/dataplane/ibdp/EigrpRoutingProcess.java:249-261 | One route is built per received message, in order. Each is the transform of a received message, with the internal admin cost, the process AS and the given next hop. |
| EigrpProcess.InternalQueueOps | projects/batfish/src/main/java/org/batfish/dataplane/ibdp/EigrpRoutingProcess.java:244-261 | The operations of one internal queue can be built exactly when the edge can be looked up and, unless the queue is empty, the neighbour's interface has EIGRP settings. There is then one operation per message, each learned from the message at the same position. |
| EigrpProcess.DrainInternal | projects/batfish/src/main/java/org/batfish/dataplane/ibdp/EigrpRoutingProcess.java:243-268 | Draining one internal queue succeeds exactly when the queue's operations can be built. It empties the queue and changes only the internal RIB. The RIB and the delta are what applying those operations in queue order gives. Every route it announces is what one of the queue's messages became: the message's network, the metric accumulated over the edge, the internal admin cost, the process AS and the advertiser's address as next hop. |
| EigrpProcess.ProcessInternalEdges | projects/batfish/src/main/java/org/batfish/dataplane/ibdp/EigrpRoutingProcess.java:241-269 | Draining the listed internal queues in order empties those queues and leaves the others alone. The concatenated delta exactly records the internal RIB's change, and each route it announces was learned from a message queued at the start. |
| EigrpProcess.ProcessInternalEdgesIsBatch | projects/batfish/src/main/java/org/batfish/dataplane/ibdp/EigrpRoutingProcess.java:241-269 | Draining the listed internal queues one after another succeeds exactly when the operations of all of them, read at the start, can be built. The internal RIB and the delta are then what applying all those operations, in order, to the starting RIB gives. |
| EigrpProcess.ProcessInternal | projects/batfish/src/main/java/org/batfish/dataplane/ibdp/EigrpRoutingProcess.java:239-270 | All internal queues end empty, and only the internal RIB and the queues change. Processing succeeds exactly when the operations of every queue, taken in queue order, can be built. The internal RIB and the delta are then what applying all of them in that order gives. Every route the delta announces was learned from a queued message, with that message's network, the accumulated metric, the internal admin cost, the process AS and the advertiser's address. |
| EigrpProcess.SingleAnnouncementLearned | projects/batfish/src/main/java/org/batfish/dataplane/ibdp/EigrpRoutingProcess.java:244-265 | Suppose one announcement for an unknown network is the only message. The process then installs and reports exactly one route with: that network; the receiving interface's metric accumulated with the advertiser's metric and the advertised metric; the internal admin cost; the process AS; the advertiser's address as next hop. |
| EigrpProcess.EmptyInternalInboxesChangeNothing | projects/batfish/src/main/java/org/batfish/dataplane/ibdp/EigrpRoutingProcess.java:247-268 | Draining internal queues that are all empty changes nothing and reports nothing. |
| EigrpProcess.ExternalLinkOf | projects/batfish/src/main/java/org/batfish/dataplane/ibdp/EigrpRoutingProcess.java:281-292 | Looking up an edge succeeds exactly when the next-hop interface exists and either the edge is skipped or the receiving interface exists and the next-hop interface has an address. The edge is skipped exactly when the next-hop interface lacks EIGRP settings, whatever the receiving end, or has them and the receiving interface exists without them: the test short-circuits. Otherwise the link carries both interfaces' metrics and the next-hop address. Each failure names the missing interface or address. |
| EigrpProcess.SkipIgnoresReceiver | projects/batfish/src/main/java/org/batfish/dataplane/ibdp/EigrpRoutingProcess.java:284-287 | A next-hop interface without EIGRP settings skips the edge, even when the receiving interface is missing. |
| EigrpProcess.ExternalOp | projects/batfish/src/main/java/org/batfish/dataplane/ibdp/EigrpRoutingProcess.java:294-302 | A received message becomes an operation with the same withdrawal flag, network and destination AS. It has the metric accumulated over the edge, the external admin cost, the process AS, the next-hop address, and routing. |
| EigrpProcess.ExternalOps | projects/batfish/src/main/java/org/batfish/dataplane/ibdp/EigrpRoutingProcess.java:293-302 | One route is built per received message, in order. Each is the transform of a received message, with the external admin cost, the process AS, the given next hop, and routing. |
| EigrpProcess.ExternalQueueOps | projects/batfish/src/main/java/org/batfish/dataplane/ibdp/EigrpRoutingProcess.java:279-302 | The operations of one external queue can be built exactly when the edge can be looked up. A skipped edge contributes none. Otherwise there is one operation per message, each learned from the message at the same position. |
| EigrpProcess.DrainExternal | projects/batfish/src/main/java/org/batfish/dataplane/ibdp/EigrpRoutingProcess.java:278-310 | Draining one external queue succeeds exactly when the queue's operations can be built. If the edge is skipped, as `SkipsEdge` defines, its queue is left untouched. Otherwise its queue is emptied and only the external RIB changes. The RIB and the delta are what applying the queue's operations in order gives. Every route the delta announces is what one of the queue's messages became: same network and destination AS, the metric accumulated over the edge, the external admin cost, the process AS, the advertiser's address, routing. |
| EigrpProcess.ProcessExternalEdges | projects/batfish/src/main/java/org/batfish/dataplane/ibdp/EigrpRoutingProcess.java:278-310 | Draining the listed external queues in order keeps the queues of skipped edges and empties the other listed ones. Queues not listed are left alone, and only the external RIB and the queues change. The concatenated delta exactly records the external RIB's change. Each route it announces carries the external admin cost, the process AS and a next hop, is routing, and was learned from a message queued at the start. |
| EigrpProcess.ProcessExternalEdgesIsBatch | projects/batfish/src/main/java/org/batfish/dataplane/ibdp/EigrpRoutingProcess.java:279-310 | Draining the listed external queues one after another succeeds exactly when the operations of all of them, read at the start, can be built. The external RIB and the delta are then what applying all those operations, in order, to the starting RIB gives. |
| EigrpProcess.ProcessExternal | projects/batfish/src/main/java/org/batfish/dataplane/ibdp/EigrpRoutingProcess.java:273-313 | Every external queue ends empty, except those of skipped edges, which keep their messages. Only the external RIB and the queues change. Processing succeeds exactly when the operations of every queue, taken in queue order, can be built, skipped queues contributing none. The external RIB and the delta are then what applying all of them in that order gives. Every route the delta announces was learned from a queued message, keeping its network and destination AS. |
| EigrpProcess.EmptyExternalInboxesChangeNothing | projects/batfish/src/main/java/org/batfish/dataplane/ibdp/EigrpRoutingProcess.java:290-309 | Draining external queues that are all empty changes nothing and reports nothing. |
| EigrpProcess.RecordChanges | projects/batfish/src/main/java/org/batfish/dataplane/ibdp/EigrpRoutingProcess.java:163-165 | Importing the two deltas only changes the combined RIB and extends the change set. The combined RIB becomes what applying the internal delta, then the external delta, makes of it. The extension is exactly the change that application reports. |
| EigrpProcess.RecordNothingChangesNothing | projects/batfish/src/main/java/org/batfish/dataplane/ibdp/EigrpRoutingProcess.java:163-165 | Importing two empty deltas leaves the process as it was. |
| EigrpProcess.UpdatesReplayRound | projects/batfish/src/main/java/org/batfish/dataplane/ibdp/EigrpRoutingProcess.java:163-171 | Starting from an empty change set, the updates for the main RIB are exactly what applying the internal delta, then the external delta, does to the combined RIB. Replaying them on the old combined RIB gives the new one. |
| Dataplane.EnqueueInternal | projects/batfish/src/main/java/org/batfish/dataplane/ibdp/EigrpRoutingProcess.java:426-431 | Enqueueing changes only internal queue contents; EnqueueInternalEffect states the in-order append. |
| Dataplane.EnqueueExternal | projects/batfish/src/main/java/org/batfish/dataplane/ibdp/EigrpRoutingProcess.java:433-438 | Enqueueing changes only external queue contents; EnqueueExternalEffect states the in-order append. |
| Dataplane.EnqueueInternalEffect | projects/batfish/src/main/java/org/batfish/dataplane/ibdp/EigrpRoutingProcess.java:426-431 | Enqueueing at one internal queue appends the messages there, after what it held, and leaves every other internal queue of every process as it was. |
| Dataplane.EnqueueExternalEffect | projects/batfish/src/main/java/org/batfish/dataplane/ibdp/EigrpRoutingProcess.java:433-438 | Enqueueing at one external queue appends the messages there, after what it held, and leaves every other external queue of every process as it was. |
| Dataplane.SendInternal | projects/batfish/src/main/java/org/batfish/dataplane/ibdp/EigrpRoutingProcess.java:315-321 | Sending succeeds if and only if, for every queue key, the neighbour process exists and has a queue for the reversed edge. On success only internal queue contents change, anywhere in the network. |
| Dataplane.SendExternal | projects/batfish/src/main/java/org/batfish/dataplane/ibdp/EigrpRoutingProcess.java:323-330 | This is the external counterpart of `SendInternal`: it succeeds exactly when all targets exist, and changes only external queue contents. |
| Dataplane.SendInternalDelivers | projects/batfish/src/main/java/org/batfish/dataplane/ibdp/EigrpRoutingProcess.java:315-321 | With distinct keys, the delta is appended once, in order, to exactly the queues that are the reverse of a key at that key's neighbour. Every other internal queue is unchanged. |
| Dataplane.SendExternalDelivers | projects/batfish/src/main/java/org/batfish/dataplane/ibdp/EigrpRoutingProcess.java:323-330 | The same holds for the external channel. |
| Dataplane.SendInternalNothing | projects/batfish/src/main/java/org/batfish/dataplane/ibdp/EigrpRoutingProcess.java:426-431 | Sending an empty delta, when it succeeds, changes nothing. |
| Dataplane.SendExternalNothing | projects/batfish/src/main/java/org/batfish/dataplane/ibdp/EigrpRoutingProcess.java:433-438 | Sending an empty delta, when it succeeds, changes nothing. |
| Dataplane.FlushInit | projects/batfish/src/main/java/org/batfish/dataplane/ibdp/EigrpRoutingProcess.java:136-141 | The initialization delta is sent only when it is non-empty, and is then forgotten. Failure happens exactly when it is non-empty and a target is missing. Otherwise only internal queue contents change, and a valid sender stays valid. |
| Dataplane.FlushInitDelivers | projects/batfish/src/main/java/org/batfish/dataplane/ibdp/EigrpRoutingProcess.java:136-141 | Flushing delivers the initialization delta once, in order, to every queue that is the reverse of one of the sender's keys at that key's neighbour. Every other internal queue is unchanged. |
| Dataplane.FlushQueued | projects/batfish/src/main/java/org/batfish/dataplane/ibdp/EigrpRoutingProcess.java:155-157 | The redistribution queue is sent even when it is empty, and is then forgotten. Failure happens exactly when a target is missing. Only external queue contents change, and an empty queue changes nothing. |
| Dataplane.FlushQueuedDelivers | projects/batfish/src/main/java/org/batfish/dataplane/ibdp/EigrpRoutingProcess.java:155-157 | Flushing delivers the redistribution queue once, in order, to every queue that is the reverse of one of the sender's keys at that key's neighbour. Every other external queue is unchanged. |
| Dataplane.InternalStep | projects/batfish/src/main/java/org/batfish/dataplane/ibdp/EigrpRoutingProcess.java:151-153 | The step succeeds exactly when every internal queue's operations can be built and every target exists. Its delta is what applying those operations, in queue order, does to the internal RIB. The delta is appended to every queue the sender's keys target at other processes. The sender's own internal queues end holding only what it sent itself. Apart from queue contents, only the internal RIB changes, by exactly the delta, and external queues are untouched. With all internal queues empty, nothing changes. |
| Dataplane.ExternalStep | projects/batfish/src/main/java/org/batfish/dataplane/ibdp/EigrpRoutingProcess.java:159-161 | The step succeeds exactly when every external queue's operations can be built and every target exists. Its delta is what applying those operations, in queue order, does to the external RIB. The delta is appended to every queue the sender's keys target at other processes. The sender's own external queues end empty, except skipped ones, which keep their messages, followed by what it sent itself. Apart from queue contents, only the external RIB changes, by exactly the delta, and internal queues are untouched. With all external queues empty, nothing changes. |
| Dataplane.InternalRound | projects/batfish/src/main/java/org/batfish/dataplane/ibdp/EigrpRoutingProcess.java:135-153 | The initialization delta is flushed, then the internal queues are drained. Success, and the delta, are as for the step, counting what the flush delivered to the sender itself. Every other process receives the initialization delta followed by the delta, where targeted. The sender's internal queues end holding only what the second send gave itself. Other processes only receive messages, and external queues are untouched. With nothing to flush and nothing received, nothing changes. |
| Dataplane.ExternalRound | projects/batfish/src/main/java/org/batfish/dataplane/ibdp/EigrpRoutingProcess.java:155-161 | The redistribution queue is flushed, then the external queues are drained. Success, and the delta, are as for the step, counting what the flush delivered to the sender itself. Every other process receives the redistribution queue followed by the delta, where targeted. The sender's external queues end empty, except skipped ones, which keep their messages and what the flush added; then comes what the second send gave itself. Other processes only receive messages, and internal queues are untouched. With nothing queued and nothing received, nothing changes. |
| Dataplane.ClearThenInternalRound | projects/batfish/src/main/java/org/batfish/dataplane/ibdp/EigrpRoutingProcess.java:134-153 | Clearing the change set and running the internal half has the internal round's contract, stated of the network before clearing. A process that was not dirty leaves the network unchanged. |
| Dataplane.RecordAt | projects/batfish/src/main/java/org/batfish/dataplane/ibdp/EigrpRoutingProcess.java:163-165 | Nothing in the network changes but the combined RIB and the change set of the process. The combined RIB becomes what applying the internal delta, then the external delta, makes of it. The change set is exactly the change that application reports. |
| Dataplane.ExecuteIteration | projects/batfish/src/main/java/org/batfish/dataplane/ibdp/EigrpRoutingProcess.java:133-166 | An iteration succeeds exactly when both halves' operations can be built and all their targets exist. Each half's delta is what applying its operations does to its RIB, counting what the flushes delivered to the process itself. The combined RIB becomes what applying both deltas makes of it, and the updates for the main RIB are exactly that change. Every other process receives the initialization delta and the internal delta, and the redistribution queue and the external delta, where targeted. The process's own queues end empty, except skipped external queues and what it sent itself. Nothing stays pending, processes and queue keys are unchanged, and apart from its queue contents, its three RIBs and its change set the process keeps its state: interfaces, topology, export policy, VRF and admin costs. A process that was not dirty leaves the network unchanged. |
| Rib.MergeRoute | projects/batfish/src/main/java/org/batfish/dataplane/ibdp/EigrpRoutingProcess.java:232 | This is an assumed RIB contract. A merge installs the route or keeps the RIB. It reports a change exactly when it makes one. A route for a new network is announced alone. |
| Rib.RemoveRoute | projects/batfish/src/main/java/org/batfish/dataplane/ibdp/EigrpRoutingProcess.java:263 | This is an assumed RIB contract. A remove never adds a network or a route. Afterwards the removed route is not installed. A network the RIB lacks is left alone. Nothing but the removed route is reported. |
| Rib.ApplyOpsReplay | projects/batfish/src/main/java/org/batfish/dataplane/ibdp/EigrpRoutingProcess.java:262-266 | Replaying the delta of a run of merges and removes onto the starting RIB gives exactly the resulting RIB. |
| Rib.ReplayConcat | projects/batfish/src/main/java/org/batfish/dataplane/ibdp/EigrpRoutingProcess.java:164-165 | Deltas compose by concatenation: replaying `d1 + d2` is replaying `d1`, then `d2`. |
| Rib.ApplyOpsKeepsUntouched | projects/batfish/src/main/java/org/batfish/dataplane/ibdp/EigrpRoutingProcess.java:262-266 | A network that none of a run of merges and removes mentions keeps its entry, or stays absent. |
| Rib.FreshAnnouncementsInstalled | projects/batfish/src/main/java/org/batfish/dataplane/ibdp/EigrpRoutingProcess.java:229-232 | Announcements for distinct networks the RIB lacks are each installed. They are reported back unchanged and in order. |

## Left out

- `computeIterationHashCode` (lines 379-385): hashing of the RIB and queues is not modelled.
- Concurrency: the queues are `ConcurrentLinkedQueue`s. The model runs one process's iteration at a time.
- The order of the queue map is the order of the `EigrpEdge` comparator, and the order of an interface's subnets is `HashSet` order. Neither comparator nor hash is part of this model. Both are fixed, unspecified enumerations, so `UpdateQueues`, `UpdateTopology`, `Initialize`, `InitOps` and `InterfaceOps` are ghost.
- The RIB classes (`EigrpInternalRib`, `EigrpExternalRib`, `EigrpRib`) and `RibDelta` are not part of this model. Their behaviour is an assumed contract:
  - one best route per network;
  - one uninterpreted preference shared by all three RIBs;
  - a delta is an ordered list of actions, with no grouping by prefix.
- Metric accumulation (`EigrpMetric.accumulate`) and routing-policy evaluation are uninterpreted functions. A policy may rewrite only the metric and the next hop of the draft route.
- `NetworkConfigurations` (lines 143-150) and the interface lookups through it are replaced by the lookup function in `Env`.
- Partial mutation before an exception is not modelled. A `Failure` discards the state, whereas the Java process would keep the changes made before the throw.
- The failure of `EigrpExternalRoute.Builder.build()` without a metric is assumed, since the builder is not part of this model.
- The two TODOs of `updateTopology` (lines 126-130) are not implemented by the source and are not modelled.
- The DUAL algorithm, feasibility conditions and route summarisation are not part of this component.
- `EigrpProcess.GetUpdatesForMainRib` has no contract of its own. It returns the change set, and its property is stated by `EigrpProcess.UpdatesReplayRound` and `Dataplane.ExecuteIteration`.
- EigrpProcess.Initialize: both admin-cost sources are modelled by the process's internal admin cost. The route's admin cost is read from the configuration format at lines 226-227, and the constructor reads it the same way at lines 98-99.
- The export policy is an optional name. When the configured name is not among the router's policies, the lookup at line 108 gives `null`, and `computeEigrpExportRoute` (lines 348-353) then exports nothing. The caller models that case by passing `None`, which the model treats the same way.
- `Dataplane.ExecuteIteration` returns the internal and external deltas next to the network, whereas `executeIteration` returns nothing. The deltas are what its contract is stated in.
- `IsDirty` has no contract of its own. `EigrpProcess.IsDirtyExactly` states its meaning.
