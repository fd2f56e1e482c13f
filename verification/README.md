# Verified models of the cheezy-core routing kernel

This project models, in Dafny, the parts of the Go program whose correctness rests on interleavings,
graph arguments or accounting, and proves what they promise for every input, every run or every
reachable state.

* **ZeroTier outbound** (`ZeroTier*.dfy`). The outbound of `adapter/outbound/zerotier.go` as a state
  machine: any number of goroutines start the runtime, deliver and apply network configurations,
  invalidate, recover from an identity collision, wait for the network, read the stack and close.
  Steps are the critical sections of `stateMu` and the calls made between them. `ZeroTierFields` has the
  critical sections as methods on the object's fields; `ZeroTierState` has the same sections as
  functions, which the steps of `ZeroTierSteps` use. `ZeroTierInvariant`, `ZeroTierInduction` and
  `ZeroTierPreservation` hold the inductive invariant (who owns which runtime and device, what the link
  carries, who is in `operationMu`), and `ZeroTierTheorems`, `ZeroTierCommits`, `ZeroTierLink` and
  `ZeroTierPursuit` what follows for every run. `ZeroTierReturn` and `ZeroTierSpoil` are particular runs.
* **UDP packet sender** (`Packet*.dfy`, `Subsequences`). The queue between many senders, one processing
  goroutine and closers that drain it, with its destination mappings and its queue-delay policy.
* **Configuration graphs** (`Graphs`, `GroupGraph`, `GroupSort`, `GroupLoops`, `ProxyGroups`,
  `DialerProxies`, `SubRules`). Sorting proxy groups, reporting their loops, validating dialer-proxy
  chains and sub-rule references, all for any map iteration order.
* **Rule matching** (`RuleMatch`). The scan over rules with nested adapters, and the rounds that
  Rematch adapters start.
* **AntiLag measurements** (`Stalls`, `StallMeter`, `StallFlush`, `StallRing`, `StallHistory`,
  `StallPath`, `Probe`, `ProbeTheorems`, `ProbeCarryOver`, `Misses`, `Ranks`, `Cadence`). The stall meter
  and its ring of time buckets, the probe winner and the receive-cadence histogram. Times are integers in nanoseconds, and a zero time is an
  absent one.
* **DNS** (`DnsClients`, `ClientCache`, `DnsTtl`). Sharing of name-server transports, and aging of
  cached answers with 32-bit arithmetic that wraps.

Where a comment of the source and its code differ, the model follows the code: the comment at
`dns/resolver.go:177` speaks of one delta for all records, while each section is aged by a delta of its
own (`dns/util.go:106-110`). `SectionAgesTogether` and `CachedServedInTime` say what that amounts to.

Four stronger properties are false of the code, each with a run or a message that shows it and the exact
condition under which it holds:

* the latest configuration need not stay the same during an apply that commits
  (`LatestMayLeaveAndReturn`, `LatestStaysExactly`);
* the link need not carry the published configuration after a rollback that failed
  (`LinkMayBeLeft`, `LinkCarriesExactly`);
* the two verdicts that overthrow a probe winner need not both go against it (`VoteMayCarryOver`,
  `SameWinnerExactly`);
* a record of a server failure, which is kept for five seconds whatever its records say, can be served
  past its own expiry (`FailureOutlivesRecord`, `FailureServedInTimeExactly`).

`dafny verify dfyconfig.toml` checks the whole project.

## Model

| member | source | states |
|---|---|---|
| ZeroTierFields.ZeroTier.NotifyStateLocked | adapter/outbound/zerotier.go:628-631 | wakes every waiter by replacing the channel and changes nothing else |
| ZeroTierFields.ZeroTier.DetachStackLocked | adapter/outbound/zerotier.go:375-380 | hands the device over to the caller and unpublishes device and resolver |
| ZeroTierFields.ZeroTier.DetachRuntimeLocked | adapter/outbound/zerotier.go:412-417 | hands runtime and device over to the caller and unpublishes both |
| ZeroTierFields.ZeroTier.ResetNetworkStateLocked | adapter/outbound/zerotier.go:382-392 | forgets configurations, login address and logged failure, sets the error, starts a new generation and wakes the waiters |
| ZeroTierFields.ZeroTier.SetNetworkFailureLocked | adapter/outbound/zerotier.go:394-399 | sets failure, login address and whether a retry is possible, and wakes the waiters |
| ZeroTierFields.ZeroTier.PublishRuntimeLocked | adapter/outbound/zerotier.go:546-549 | a new runtime is published with an empty network state |
| ZeroTierFields.ZeroTier.CleanupStart | adapter/outbound/zerotier.go:550-555 | a start that fails after publishing takes its own runtime back and nobody else's |
| ZeroTierFields.ZeroTier.EnqueueNetworkConfig | adapter/outbound/zerotier.go:579-599 | only the current runtime's configuration is recorded as the latest one; the generation stays |
| ZeroTierFields.ZeroTier.BeginRetryNetwork | adapter/outbound/zerotier.go:817-838 | one retry at a time, which clears the error without waking anybody |
| ZeroTierFields.ZeroTier.ConfigSnapshotCurrentLocked | adapter/outbound/zerotier.go:1034-1040 | a snapshot is current exactly if runtime, latest configuration and generation are those it was taken with |
| ZeroTierFields.ZeroTier.RecordConfigFailure | adapter/outbound/zerotier.go:880-888 | a failure is recorded only for a snapshot that is still current |
| ZeroTierFields.ZeroTier.InvalidateNetwork | adapter/outbound/zerotier.go:893-919 | detaches the device, forgets the latest configuration unless it may be retried, starts a new generation, sets the error and tells whether the failure is news; a stale source changes nothing |
| ZeroTierFields.ZeroTier.InvalidateDevice | adapter/outbound/zerotier.go:921-932 | detaches the device exactly if it is still the published one |
| ZeroTierFields.ZeroTier.CommitLocked | adapter/outbound/zerotier.go:994-1020 | publishes device, configuration and resolver and clears the failure exactly if the snapshot is current and the device unchanged |
| ZeroTierFields.ZeroTier.DetachCollidedRuntime | adapter/outbound/zerotier.go:781-800 | a collision detaches the runtime it concerns, unless the outbound is closed, and no other |
| ZeroTierFields.ZeroTier.CloseLocked | adapter/outbound/zerotier.go:1352-1361 | the first close detaches everything, sets the closed error and wakes the waiters; a later one changes nothing |
| ZeroTierInvariant.InitialInv | adapter/outbound/zerotier.go:63-79 | the fresh outbound satisfies the invariant of locks, ownership, link and retry |
| ZeroTierPreservation.CallbackObliged | adapter/outbound/zerotier.go:579-655 | every step of configuration delivery, of the configuration worker and of the invalidations keeps its part of the invariant |
| ZeroTierPreservation.StartObliged | adapter/outbound/zerotier.go:448-577 | every step of a start, with its failures, keeps its part of the invariant |
| ZeroTierPreservation.EnsureObliged | adapter/outbound/zerotier.go:601-626 | every step of waiting for the network, with the retry it may run, keeps its part of the invariant |
| ZeroTierPreservation.ApplyObliged | adapter/outbound/zerotier.go:934-1032 | every step of applying a configuration, with commit and rollback, keeps its part of the invariant |
| ZeroTierPreservation.RecoverObliged | adapter/outbound/zerotier.go:781-815 | every step of the recovery from an identity collision keeps its part of the invariant |
| ZeroTierPreservation.CloseObliged | adapter/outbound/zerotier.go:1341-1369 | every step of a close keeps its part of the invariant |
| ZeroTierPreservation.StackObliged | adapter/outbound/zerotier.go:1207-1235 | every step of choosing the stack for a destination keeps its part of the invariant |
| ZeroTierPreservation.StepKeepsInv | adapter/outbound/zerotier.go:454-1040 | every step of every goroutine keeps the whole invariant |
| ZeroTierPreservation.StepRelies | adapter/outbound/zerotier.go:63-79 | what a goroutine outside a lock may rely on across the steps of others: generations grow and closed stays closed |
| ZeroTierTheorems.RunKeepsInv | adapter/outbound/zerotier.go:454-1040 | every state of every run satisfies the invariant |
| ZeroTierTheorems.PublishedDeviceBelongsToRuntime | adapter/outbound/zerotier.go:934-1032 | a published device was made for the published runtime, with the addresses and MTU of the published configuration, which that runtime's node delivered |
| ZeroTierTheorems.CommitIsUndisturbed | adapter/outbound/zerotier.go:934-1040 | at every moment of an apply that commits, runtime, device, published configuration and generation are those of its job |
| ZeroTierTheorems.CommitExcludesInvalidation | adapter/outbound/zerotier.go:893-932 | no invalidation of network or device falls between the snapshot and the commit |
| ZeroTierCommits.OnlyDeliveriesChangeLatest | adapter/outbound/zerotier.go:579-599 | within a generation only a delivery changes the latest configuration, to what it delivers |
| ZeroTierCommits.CommitPublishesLatest | adapter/outbound/zerotier.go:934-1040 | runtime, latest configuration, device and generation are the job's at the snapshot and again at the commit, which publishes the latest configuration; in between runtime, device, published configuration and generation never change |
| ZeroTierCommits.LatestStaysExactly | adapter/outbound/zerotier.go:1034-1040 | the latest configuration is the committed one at every moment between exactly if nothing else was delivered between |
| ZeroTierReturn.LatestMayLeaveAndReturn | adapter/outbound/zerotier.go:579-599 | a run where another configuration is delivered and the first one again during an apply that commits |
| ZeroTierCommits.CommitExcludesEarlierInvalidation | adapter/outbound/zerotier.go:633-655 | already from the snapshot of the worker or the retry that asked for the apply, the generation is the same up to the commit and no invalidation of the network happens |
| ZeroTierLink.LeftUntilMended | adapter/outbound/zerotier.go:996-1009 | a failed rollback counts until a commit, a rollback that restores, or a new runtime |
| ZeroTierLink.LeftByLast | adapter/outbound/zerotier.go:996-1009 | what a failed rollback left on the link is the configuration of the last one that was not made good |
| ZeroTierLink.LinkCarriesExactly | adapter/outbound/zerotier.go:986-1019 | with a published device and no apply between the link and its decision, the link carries the effective form of the published configuration exactly if every failed rollback was made good, or the last one that was not had the same effective form |
| ZeroTierLink.LinkCarriesPublishedConfig | adapter/outbound/zerotier.go:986-1019 | in particular without failed rollbacks, or once they are made good |
| ZeroTierSpoil.LinkMayBeLeft | adapter/outbound/zerotier.go:996-1009 | a run from the initial state ends with a published device whose link carries another configuration than the published one |
| ZeroTierLink.DestinationSeesPublishedConfig | adapter/outbound/zerotier.go:1207-1235 | a destination that passes both checks was validated on the published device, and against the published configuration exactly under the same condition |
| ZeroTierPursuit.NoConfigIsLost | adapter/outbound/zerotier.go:579-655 | in every run, a latest configuration of the published runtime that is not itself published has a token waiting, a goroutine at it, or a recorded failure that the next use retries |
| ZeroTierPursuit.RestMeansPublishedOrFailed | adapter/outbound/zerotier.go:579-655 | with no goroutine and no token left, the latest configuration is published or its failure is recorded |
| ZeroTierPursuit.NoConfigIsCarriedOver | adapter/outbound/zerotier.go:546-549 | a configuration of an earlier runtime is forgotten before a later one gets its own |
| ZeroTierTheorems.ClosedAtMostOnce | adapter/outbound/zerotier.go:375-446 | no runtime or device is closed twice, and none that is published is closed |
| ZeroTierTheorems.QuiescenceLeaksNothing | adapter/outbound/zerotier.go:960-1029 | with no goroutine left, every runtime and device ever made is either published or closed exactly once |
| ZeroTierTheorems.ClosedForever | adapter/outbound/zerotier.go:1341-1369 | once closed, always closed |
| ZeroTierTheorems.CloseIsFinal | adapter/outbound/zerotier.go:1341-1369 | after a close has detached, nothing is ever published again and the closed error stays |
| ZeroTierTheorems.WakeupReplacesChannel | adapter/outbound/zerotier.go:628-631 | every step that ends the waiting condition closes the channel the waiters captured |
| ZeroTierTheorems.NoLostWakeup | adapter/outbound/zerotier.go:601-631 | a goroutine that sleeps although its reason is gone can always wake up |
| ZeroTierTheorems.WritersExclude | adapter/outbound/zerotier.go:63-79 | holders of the operation lock exclude each other and all readers |
| ZeroTierTheorems.OneRetryAtATime | adapter/outbound/zerotier.go:817-878 | the retrying flag is set exactly while one goroutine, and no second one, is retrying |
| PacketState.MappingRoundTrip | tunnel/connection.go:64-85 | a reply from a freshly mapped target is restored to the origin that was mapped to it |
| PacketSender.Sender.constructor | tunnel/connection.go:49-62 | a new sender is open, empty, and not yet established |
| PacketSender.Sender.AddMapping | tunnel/connection.go:64-76 | entries that are missing or invalid are filled in, and no valid entry ever changes |
| PacketSender.Sender.RestoreReadFrom | tunnel/connection.go:78-85 | the origin recorded for an address, or the address itself |
| PacketSender.Sender.ProcessPacket | tunnel/connection.go:87-161 | a packet is written exactly if both checks find the sender open and the packet in time and a target is known or resolved; it goes to the target its destination is mapped to, and the mapping made is the only change |
| PacketSender.Sender.Admit | tunnel/connection.go:192-212 | admitted exactly if open and not full, at the end of the queue, and stamped unless no one needs the time |
| PacketSender.Sender.Take | tunnel/connection.go:171-189 | a receive removes the oldest packet, or tells that there is none |
| PacketSender.Sender.BeginClose | tunnel/connection.go:214-222 | closes, and tells the first closer that it has to drain |
| PacketSender.Sender.DropAll | tunnel/connection.go:181-190 | with nobody else receiving, hands out every queued packet once, in order, and leaves the queue empty |
| PacketInvariant.LockingKeptByCaller | tunnel/connection.go:192-224 | the mutex is held by a sender exactly between its check and its channel operation |
| PacketInvariant.ClosingKeptByCaller | tunnel/connection.go:181-224 | capacity is kept, a closed sender is drained or being drained, and a drained one is empty |
| PacketInvariant.ClosingKeptByProcess | tunnel/connection.go:163-179 | the processing goroutine keeps the same, and stops only with a close made or on its way |
| PacketInvariant.OwnershipKeptByCaller | tunnel/connection.go:181-224 | senders and drains pass each packet on, or release it, without losing or doubling it |
| PacketInvariant.OwnershipKeptByProcess | tunnel/connection.go:87-179 | the processing goroutine passes each packet on, or releases it, without losing or doubling it |
| PacketInvariant.OrderedKeptByCaller | tunnel/connection.go:181-212 | admissions are what was taken followed by what is queued, and drains keep the order of writes |
| PacketInvariant.OrderedKeptByProcess | tunnel/connection.go:87-179 | takes, give-ups and writes of the processing goroutine keep the order of admission |
| PacketInvariant.ExpiryKeptByCaller | tunnel/connection.go:192-212 | every packet is stamped while a limit is possible |
| PacketInvariant.ExpiryKeptByProcess | tunnel/connection.go:87-179 | a packet about to be written was in time at its last check |
| PacketInvariant.DestinationsKeptByProcess | tunnel/connection.go:64-161 | what was written for a destination is what it is still mapped to |
| PacketTheorems.StepKeepsInv | tunnel/connection.go:64-224 | every step of senders, closers and the processing goroutine keeps the whole invariant |
| PacketTheorems.RunKeepsInv | tunnel/connection.go:64-224 | every state of every run satisfies the invariant |
| PacketTheorems.ReleasedExactlyOnce | tunnel/connection.go:87-224 | at every moment a packet given to `Send` has been released once, or is queued once, or is in the hands of exactly one goroutine |
| PacketTheorems.QuiescenceReleasesAll | tunnel/connection.go:87-224 | when the processing goroutine has stopped and all callers are back, the sender is closed and empty and every packet was released exactly once |
| PacketTheorems.QueueIsBounded | tunnel/tunnel.go:38 | the queue never holds more than 128 packets |
| PacketTheorems.ClosedStays | tunnel/connection.go:192-224 | nothing is admitted after a close |
| PacketTheorems.DrainedStaysEmpty | tunnel/connection.go:181-224 | once the drain after a close has finished, the queue stays empty for ever |
| PacketTheorems.WritesFollowAdmission | tunnel/connection.go:87-212 | the packets written are a subsequence of the packets admitted |
| PacketTheorems.NoExpiredWrite | tunnel/connection.go:29-31 | under a delay limit every written packet was stamped and had waited less than the limit at its last check |
| PacketTheorems.OneTargetPerOrigin | tunnel/connection.go:64-161 | all writes for one destination go to one address |
| PacketTheorems.MappingsAreStable | tunnel/connection.go:64-85 | a mapping never changes once made, so replies keep being restored to the same address |
| PacketTheorems.RepliesGoToFirstOrigin | tunnel/connection.go:64-85 | in every run, a reply from an address is restored to a given origin exactly if that origin was the first valid one mapped to the address |
| GroupGraph.NoErrorMeansDistinct | config/utils.go:35-50 | no group is refused exactly if all decode and their names are distinct |
| GroupSort.AddReferences | config/utils.go:52-58 | each reference adds one to the in-degree of its node, repeated ones repeatedly, and unknown nodes come into being |
| GroupSort.BuildGraph | config/utils.go:34-59 | the first group that does not decode or repeats a name is the error; otherwise in-degrees count references and each node knows its group |
| GroupSort.FirstQueue | config/utils.go:62-69 | for any map order the queue holds exactly the nodes nobody refers to, each once |
| GroupSort.DropReferences | config/utils.go:82-88 | takes the references of one node back; no step looks up a deleted node, and a node is queued exactly when its last reference goes |
| GroupSort.TopologicalSort | config/utils.go:60-91 | what was removed fills the list from its end, in an order where referrers go first, and everything left is still referred to |
| GroupLoops.AddLinks | config/utils.go:109-116 | gives the references of one node a link back and counts them as its out-degree |
| GroupLoops.RebuildGraph | config/utils.go:98-117 | every node left knows who refers to it and how many references it has |
| GroupLoops.FirstOutQueue | config/utils.go:119-125 | for any map order the queue holds exactly the nodes without references, each once |
| GroupLoops.DropReferrers | config/utils.go:130-135 | takes one reference from each referrer and queues those that have none left |
| GroupLoops.TrimOutgoing | config/utils.go:118-137 | what is left has a reference to something left, and what was removed had none |
| GroupLoops.NamesOf | config/utils.go:138-143 | the report lists every node left once |
| ProxyGroups.RemovalOrderIsSort | config/utils.go:60-96 | a complete removal leaves a permutation of the groups with every group after all groups it refers to |
| ProxyGroups.RemovalOrderIsAcyclic | config/utils.go:60-96 | a complete removal shows that there is no cycle |
| ProxyGroups.ReportIsExact | config/utils.go:98-144 | what two trimmings leave is not empty only if there is a cycle, and is the largest set whose members have predecessor and successor in it |
| ProxyGroups.ProxyGroupsDagSort | config/utils.go:18-145 | succeeds exactly if the groups decode, have distinct names and are acyclic, with a permutation in dependency order; refuses with the first group that does not decode or repeats a name, the list unchanged; otherwise reports the loop set |
| ProxyGroups.ReportSurroundsCycles | config/utils.go:98-144 | every node on a cycle is reported, and every reported node lies on a walk from a cycle to a cycle |
| DialerProxies.CollectDialers | config/utils.go:148-164 | the references of all proxies, or one that does not exist |
| DialerProxies.WalkChain | config/utils.go:171-179 | a walk ends without a reference or at a finished proxy, or has met itself on a real cycle; nobody is marked twice |
| DialerProxies.FinishPath | config/utils.go:180-182 | every proxy of the path becomes finished |
| DialerProxies.ValidateDialerProxies | config/utils.go:148-186 | accepts exactly if every reference exists and no chain is cyclic, for any iteration order, marking each proxy at most once |
| SubRules.Check | config/config.go:1088-1115 | an error names a reference that is missing, or a walk of references that comes back |
| SubRules.IsInArray | config/config.go:1089-1096 | whether a name is on the visible part of the path |
| SubRules.Append | config/config.go:1098 | appending keeps the caller's part of a shared backing array |
| SubRules.CleanIsAcyclic | config/config.go:1078-1115 | if no walk finds an error, every reference resolves and there is no cycle |
| SubRules.ErrorIsReal | config/config.go:1078-1115 | an error found is a missing reference or a real cycle |
| SubRules.VerifyCircularReferences | config/config.go:1088-1115 | the walk on a shared buffer finds what a walk on private paths finds, and terminates |
| SubRules.VerifySubRule | config/config.go:1078-1086 | accepts exactly the maps where every reference resolves and no chain of references comes back |
| RuleMatch.SortGroups | config/config.go:947-950 | a sort that succeeds leaves groups with distinct names, each after all groups it refers to |
| RuleMatch.MembersRankLower | config/utils.go:60-91 | in a sorted group list the members of a group rank below it |
| RuleMatch.UnwrapGoesDown | config/config.go:971-1010 | whatever a group unwraps to ranks below it in the sorted list, the added GLOBAL group above all |
| RuleMatch.LayersAreBounded | tunnel/tunnel.go:699 | the walk over nested adapters has at most two steps more than there are groups |
| RuleMatch.ComesToOneThing | tunnel/tunnel.go:699-713 | the first Pass or Rematch layer, or none, decides what an adapter comes to |
| RuleMatch.UnwrapAdapter | tunnel/tunnel.go:696-713 | the walk over nested adapters ends by the order of the groups and finds the first Pass or Rematch layer and whether any layer is smart |
| RuleMatch.DecideRule | tunnel/tunnel.go:683-727 | a rule is skipped for no match, a missing target, Pass or missing UDP support of what its target currently chooses, restarts on Rematch, and is accepted otherwise, with its marks on the metadata |
| RuleMatch.ScanRules | tunnel/tunnel.go:681-728 | one scan gives the first rule that is not skipped, earlier rules having marked the metadata |
| RuleMatch.Match | tunnel/tunnel.go:673-758 | ends after at most one round per Rematch name plus one; the last round decides: its first accepted rule, DIRECT, or the repeated Rematch adapter |
| RuleMatch.DecidesOnce | tunnel/tunnel.go:683-727 | what a rule does and leaves is determined |
| RuleMatch.ScanGivesOnce | tunnel/tunnel.go:681-728 | the outcome of a scan is determined |
| RuleMatch.LastRoundGivesOnce | tunnel/tunnel.go:729-746 | the result of the last round is determined by its metadata and the names before it |
| RuleMatch.MatchGivesOnce | tunnel/tunnel.go:673-748 | the rounds and the result of a match are determined by the tables and the metadata |
| Stalls.SendIsImplied | adapter/outboundgroup/antilag_stalls.go:47 | the test that something was sent after the last receive is implied |
| Stalls.ChargeIsGrowth | adapter/outboundgroup/antilag_stalls.go:45-58 | a continuous observation of an armed meter charges the growth of the gap beyond the threshold, and an event when that begins |
| Stalls.ObserveKeepsValid | adapter/outboundgroup/antilag_stalls.go:26-80 | ranges of the learned gap, order of times, and an episode exactly while the open gap has outgrown the threshold |
| Stalls.ThresholdIsBounded | adapter/outboundgroup/antilag_stalls.go:31-34 | the threshold is between 150 milliseconds and one second |
| Stalls.ExcessWithinActive | adapter/outboundgroup/antilag_stalls.go:26-80 | over every run excess is at most active time and the learned gap at most 250 milliseconds |
| Stalls.GapTelescopes | adapter/outboundgroup/antilag_stalls.go:45-58 | however sends slice an open gap, its charges add up to its overrun, with one event exactly if there is one |
| Stalls.WholeGap | adapter/outboundgroup/antilag_stalls.go:45-80 | a gap between two receives costs max(0, length - threshold) and one event exactly if it is longer than the threshold |
| Stalls.ChargesAreGapByGap | adapter/outboundgroup/antilag_stalls.go:26-80 | over every run the charges are the sum of what its receive gaps are worth, however the sends fall |
| StallMeter.StallMeter.Observe | adapter/outboundgroup/antilag_stalls.go:26-80 | one observation in place is the observation that the lemmas are about |
| StallMeter.StallMeter.Count | adapter/outboundgroup/antilag_stalls.go:31-58 | a lapse clears the meter; otherwise time, excess and events are charged |
| StallMeter.StallMeter.LearnGap | adapter/outboundgroup/antilag_stalls.go:59-73 | a receive moves the usual gap, unless it ends an episode |
| StallFlush.FlushKeepsTotal | adapter/outboundgroup/antilag_stalls.go:144-151 | a flush moves charges into the history without changing their sum or anything else of the meter |
| StallFlush.ForcedFlushEmpties | adapter/outboundgroup/antilag_stalls.go:144-151 | a forced flush leaves nothing behind, although it looks at the active time only |
| StallFlush.FlushingLosesNothing | adapter/outboundgroup/antilag_stalls.go:134-151 | over every run what is merged and what is pending add up to what the receive gaps are worth |
| StallRing.AddHolds | adapter/outboundgroup/antilag_stalls.go:98-110 | an add keeps every bucket the sum of its slot and not behind any add that belongs in it |
| StallRing.RingRefinesLog | adapter/outboundgroup/antilag_stalls.go:82-123 | for adds in any order, the six buckets read at a slot none is after show the sum of all adds of the last six slots |
| StallHistory.AddDelta | adapter/outboundgroup/antilag_stalls.go:98-110 | an add in place: a bucket of an older slot is taken over, a late add is refused |
| StallHistory.ReadEvidence | adapter/outboundgroup/antilag_stalls.go:111-132 | the evidence is judged from the sum of the recent buckets, and is absent without active time |
| StallHistory.PenaltyIsBounded | adapter/outboundgroup/antilag_stalls.go:127-130 | a penalty is at least 0, below 80, and 0 before 20 seconds of active time |
| StallHistory.NewHistory | adapter/outboundgroup/antilag_stalls.go:159-161 | a new ring has six empty buckets |
| StallHistory.EvidenceIsOfRecentMerges | adapter/outboundgroup/antilag_stalls.go:98-132 | for merges that meters hand over, in any order, the evidence is judged from exactly those of the last six slots, is absent exactly if they are nothing, and has a penalty in range |
| StallHistory.AntiHistory.AddStalls | adapter/outboundgroup/antilag_stalls.go:152-169 | a merge goes to the ring of the exact endpoint and of the service in its region, and every ring keeps holding its key's log |
| StallHistory.AntiHistory.EvidenceOf | adapter/outboundgroup/antilag_stalls.go:111-132 | the evidence of a key is judged from its recent buckets, which at a slot no merge is after are the merges of its last six slots, with a penalty in range; an unknown key has none |
| StallPath.FlowPath.FlushStalls | adapter/outboundgroup/antilag_stalls.go:144-151 | merges into the history if anything is pending and either forced or five seconds active |
| StallPath.FlowPath.Observe | adapter/outboundgroup/antilag_stalls.go:136-142 | merges before a pause of more than a second, observes, and merges when due; the history gets exactly what was merged |
| StallPath.EvidenceOfPackets | adapter/outboundgroup/antilag_stalls.go:26-151 | whatever packets a path has seen, its merges leave evidence judged from those of the last six slots, with a penalty in range |
| Ranks.SortPermutes | adapter/outboundgroup/antilag_probe.go:54 | sorting keeps the values |
| Ranks.PercentileIs | adapter/outboundgroup/antilag_probe.go:53-56 | the nearest-rank percentile is one of the values, and is at most v exactly when that many values are |
| Probe.GradeWindow | adapter/outboundgroup/antilag_probe.go:36-58 | the loop counts recent samples and replies and takes the 95th percentile of the replies |
| Probe.GradeIsFair | adapter/outboundgroup/antilag_probe.go:36-58 | a loss is a fraction, and the graded time is a recent reply's that at least 95 in 100 do not exceed |
| Probe.BetterIsAsymmetric | adapter/outboundgroup/antilag_probe.go:104-108 | two nodes cannot beat each other |
| Probe.AntiRegion.RecordSample | adapter/outboundgroup/antilag_probe.go:80-87 | a sample is appended, the last 64 are kept, and the revision grows |
| Probe.AntiRegion.GradeNamed | adapter/outboundgroup/antilag_probe.go:36-58 | the grade of a node's window, empty for an unknown node |
| Probe.AntiRegion.Compare | adapter/outboundgroup/antilag_probe.go:88-131 | a comparison in place, with its several readings of the clock, is a verdict on the current winner followed by its vote |
| ProbeTheorems.VotesAreStanding | adapter/outboundgroup/antilag_probe.go:113-131 | over every run an open vote goes back to a favourable verdict at the noted revision that nothing took back |
| ProbeTheorems.WinnerFallsToTwoVerdicts | adapter/outboundgroup/antilag_probe.go:88-131 | a winner is overthrown only by a second favourable verdict, at a later revision than a first one, with no losing verdict and no rival vote between |
| ProbeTheorems.TwoVerdictsSuffice | adapter/outboundgroup/antilag_probe.go:116-130 | conversely, a second favourable verdict at another revision, with the first still standing, makes the challenger the winner |
| ProbeTheorems.SameWinnerExactly | adapter/outboundgroup/antilag_probe.go:93-130 | both verdicts go against one winner that stays the winner exactly if no comparison after the first gives a silent winner up |
| ProbeCarryOver.VoteMayCarryOver | adapter/outboundgroup/antilag_probe.go:93-130 | a run where a vote against a winner that fell silent carries over, and its successor with 20 recent replies falls to one verdict |
| ProbeTheorems.OtherwiseOnlySilentWinnersGo | adapter/outboundgroup/antilag_probe.go:93-95 | a winner that changes was absent, had fewer than 20 recent replies, or lost a verdict |
| ProbeTheorems.ChallengesWithinSamples | adapter/outboundgroup/antilag_probe.go:80-131 | winners are overthrown no more often than samples are recorded |
| Misses.StreakIsLongest | adapter/outboundgroup/antilag_probe.go:190-205 | the streak is the longest run of misses at the end |
| Misses.AntiMiss.Update | adapter/outboundgroup/antilag_probe.go:195-205 | reports exactly if the last three rounds were misses while the other side answered, and keeps the time of the first |
| Cadence.BinIsUnique | adapter/outboundgroup/antilag_cadence.go:29-34 | an accepted gap has one bin |
| Cadence.CountsOneMore | adapter/outboundgroup/antilag_cadence.go:29-35 | binning a gap keeps the bins up to a bound equal to the number of gaps up to it |
| Cadence.ReachedIsPercentile | adapter/outboundgroup/antilag_cadence.go:43-52 | the first bin whose running sum reaches the rank is the bin of the gap of that rank |
| Cadence.SpreadIsBounded | adapter/outboundgroup/antilag_cadence.go:54 | a spread is between 0 and 100 |
| Cadence.CadenceWindow.Reset | adapter/outboundgroup/antilag_cadence.go:23 | an emptied window has seen no gaps |
| Cadence.CadenceWindow.PercentileBound | adapter/outboundgroup/antilag_cadence.go:43-53 | the least bound not below the true nearest-rank percentile of the gaps seen |
| Cadence.CadenceWindow.Put | adapter/outboundgroup/antilag_cadence.go:29-35 | a gap up to a second is counted in exactly one bin |
| Cadence.CadenceWindow.Observe | adapter/outboundgroup/antilag_cadence.go:20-55 | empties itself on a gap without recent traffic both ways; after ten seconds yields the spread of its gaps if there are 32, and empties itself |
| DnsClients.RewrapClient | dns/util.go:149-160 | all wrappers come off and those of the parameters go on |
| DnsClients.RewrapForgets | dns/util.go:146-160 | wrapping anew keeps the transport and forgets every earlier wrapper |
| DnsClients.TransportParamsAreNotWrappers | dns/util.go:162-166 | no parameter a transport constructor reads is a wrapper's own |
| DnsClients.EqualTransportsAreSetUpAlike | dns/resolver.go:438-463 | servers with equal transports are set up alike by the transport constructors |
| DnsClients.WrappersReadTheirOwn | dns/util.go:207-291 | the wrappers depend on the wrapper-only parameters alone |
| DnsClients.SharingIsEquivalence | dns/resolver.go:440-463 | transport equality is symmetric and transitive, and reflexive exactly for comparable adapters |
| ClientCache.Cache.Transform | dns/util.go:116-144 | a client built from scratch is its wrappers over a new transport |
| ClientCache.Cache.Scan | dns/resolver.go:541-549 | the first equal server ends the scan; if there is none, the first equal transport is found, or there is none either |
| ClientCache.Cache.ClientFor | dns/resolver.go:539-563 | an equal server's client is handed out with the cache unchanged; otherwise the server is added over the first transport it may share, or over a new one |
| ClientCache.Cache.CacheTransform | dns/resolver.go:537-566 | every client returned is listed under its server, in order, and the cache stays consistent and only grows |
| ClientCache.HandedOutAgreesWithBuilding | dns/resolver.go:533-566 | across all calls a client handed out is what building its server gives, over a transport set up the same, and two share a transport exactly when their servers may |
| DnsTtl.MinimalTTL | dns/util.go:28-36 | the least time to live, reached by a record, or 0 without records |
| DnsTtl.FindMinimum | dns/util.go:28-36 | the loop finds the least time to live |
| DnsTtl.UpdateTTL | dns/util.go:38-46 | a section is aged in place, with 32-bit wrap-around and the clamp |
| DnsTtl.SectionAgesTogether | dns/util.go:38-46 | while no more is left than the section's minimum, all its records age by one amount, down to 1 |
| DnsTtl.SectionServedInTime | dns/util.go:38-46 | a section whose minimum is not below the life of its message is not served past its expiry, but for the floor |
| DnsTtl.NotOptFilters | dns/util.go:69-72 | option records and nothing else are left out, in order and with repetitions kept |
| DnsTtl.CachedServedInTime | dns/util.go:60-110 | for every cached answer but a server failure no subtraction wraps, no option record is kept, and no record is served past its own expiry but for the floor of 1 |
| DnsTtl.FailureServedInTime | dns/util.go:38-46 | one record of a server failure is served within its own time exactly under a condition on its time to live, its section's minimum, the whole seconds left and the times of putting and serving |
| DnsTtl.AnswerServedInTime | common/lru/lrucache.go:162-177 | an answer put at one time, whose expiry the cache rounds down to a whole second, and served at any later one, stale or not, has every record of every section end no later than it was given for, but for the floor of 1 |
| DnsTtl.FailureServedInTimeExactly | dns/util.go:74-110 | a server failure put at one time and served at a later one, with the expiry rounded down, is in time exactly if it is stale or every record of every section meets the condition |
| DnsTtl.FailureOutlivesRecord | dns/util.go:74-78 | a server failure with a record of two seconds, put at 0, is served at two seconds with its full two seconds again |
| DnsTtl.SetTTL | dns/util.go:89-104 | every record but an option record gets the time to live |
| DnsTtl.Message.SetMsgTTL | dns/util.go:89-104 | all three sections get the time to live, option records only in the additional section excepted |
| DnsTtl.Message.UpdateMsgTTL | dns/util.go:106-110 | each section is aged by its own minimum |
| DnsTtl.Message.Serve | dns/resolver.go:168-181 | an expired message is served with 1 and reported stale; any other is aged by the whole seconds left |

## Left out

- ZeroTierLink.LinkCarriesExactly: the link itself is taken to apply a configuration as a whole or not at all.
- ZeroTierFields.ZeroTier.CleanupStart: the close of the runtime that follows is a step of its own in the step system.
- ZeroTierFields.ZeroTier.EnqueueNetworkConfig: whether the node's own network status lets a configuration through is left to the node; the token that follows is a step of its own in the step system.
- ZeroTierPursuit.NoConfigIsLost: says nothing once the outbound is cancelled or while no runtime is published; a configuration that a failed start leaves behind belongs to no runtime, and `NoConfigIsCarriedOver` says that it is forgotten.
- ZeroTierFields.ZeroTier.InvalidateNetwork: the text of an error is passed in.
- ZeroTierCommits.CommitPublishesLatest: the generation counter does not wrap, and a delivered configuration carries the network's own identifier.
- The order in which goroutines get a lock, the packet pumps, and what the node, the link and the stack do inside: only their identities, the applied configuration and their closes are modelled.
- PacketSender.Sender.ProcessPacket: the write itself, its error and the diagnostics counters have no effect on the queue and are not modelled; the key of a destination is its host or address without a port, so ports of one host share a mapping and each packet keeps its own port, which is not modelled.
- PacketSender.Sender.DropAll: runs alone; the competition with the processing goroutine is in the step system, as `ReleasedExactlyOnce` and `DrainedStaysEmpty` say.
- Packet sniffing wrappers, write-back proxies and the reverse direction of a UDP session.
- RuleMatch.Match: a rule's match and a group's choice are functions of the metadata, so what they cache or resolve is not modelled; the failure branch of a Rematch dial is absent because that dial cannot fail.
- RuleMatch.DecideRule: what a group currently chooses, and so whether it supports UDP, does not change during one match.
- RuleMatch.UnwrapGoesDown: that a group hands out only its members is taken from how groups are built.
- ProxyGroups.ProxyGroupsDagSort: decoding of a group from its raw map beyond its name, its proxies and whether it decodes.
- Stalls.ChargesAreGapByGap: durations do not overflow 64 bits, except that the zero time is the longest duration ago.
- StallHistory.AntiHistory.AddStalls: the computation of the keys, the time a record was last seen, the trimming of old records and the journal.
- StallPath.FlowPath.FlushStalls: the journal entry of a flush.
- StallPath.FlowPath.Observe: times are not before 1970, where the index of a bucket would be negative.
- Probe.AntiRegion.Compare: losses are exact fractions instead of floating point, and counters do not wrap.
- Probe.GradeWindow: the library sort is any sort, written as insertion; the clock does not advance inside one grade.
- StallRing.RingRefinesLog: counters do not wrap, and slots are not negative.
- StallHistory.PenaltyIsBounded: real arithmetic instead of floating point.
- Cadence.CadenceWindow.Observe: the 32-bit bin counters do not wrap within a window.
- DnsClients.RewrapClient: parsing of a subnet and of a record type number are functions passed in; what the wrappers and transports do with a message is not modelled.
- ClientCache.Cache.Transform: the resolver that the transports share.
- DnsTtl.Message.Serve: the clock is read once, the whole seconds left are computed exactly and not in floating point, and the rest of the cache (eviction, keys, the background refetch) is not modelled.
- Protocol adapters, listeners, the controller, rule and geodata providers, real DNS exchange, the AntiLag flow and socket layers, LightGBM scoring and persistence: they would add members without hard invariants, or depend on foreign code.
