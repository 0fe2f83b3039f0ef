# Support-chat routing engine, modelled in Dafny

This project models the routing core of a support-chat service. Customers
open chats. The service routes each chat to a team by office hours and by
team capacity. Background workers then:

- assign chats to agents round-robin by seniority tier;
- reclaim chats whose client stopped polling;
- switch agents off when their shift has ended;
- switch the overflow team on and off.

The model is sequential. The shared state is made of:

- an agent store and a session store, each a class holding a map and the
  key order it enumerates in;
- the round-robin index map of the assigner;
- two bounded id queues, one for the main team and one for overflow.

Each worker's loop body is one method on that state. Each method is proved
against a function of the state before it:

- `ShiftMonitor.Tick` is specified by `ExpireAll`.
- `InactivityMonitor.MarkInactiveChats` is specified by `ReclaimAll` and `ReleaseAll`.
- `OverflowActivator.Tick` is specified by `SetOverflowFlags` with `EnableOverflow`.
- `Assigner.TryPickNextAgent` is specified by `PickNext`.
- `Dispatcher.DispatchTeam` and `Dispatcher.OfferInTurn` are specified by `PassResult`, and one loop iteration, `Dispatcher.OfferNext`, by `OfferStep`.
- `AdmissionService.CreateChat` is specified by `TargetTeam`.

The pure policies are functions:

- per-tier allowance, team capacity and queue ceiling;
- the office-hours window;
- main-team selection.

The engine invariant is `EngineInvariant.SystemInv`. It says three things:

- every agent's load lies between 0 and its tier allowance;
- the load equals the number of Assigned or Active sessions bound to that
  agent;
- bindings agree with statuses: Queued and Rejected sessions have no agent,
  Assigned and Active ones have one.

Every state-changing operation is shown to preserve it.
`AgentsKeepIdentity` and `SessionsKeepHistory` state what no operation
undoes:

- an agent's id, team, tier and shift times;
- a session's id and creation time;
- a session's agent binding once it is set.

Behaviour of the code as written, kept in the model:

- A queue in DropWrite mode reports success even when it is full and drops
  the id. With both queues in that mode, admission is accepted exactly when
  a lane has room, so the branch that turns a queued session into a
  rejected one is never taken. `CreateChat` states this. The branch is
  still verified for a queue that can refuse a write.
- The overflow worker rewrites every overflow agent's flag on every tick.
  This can switch an agent back on after the shift monitor switched it off
  (`ActivationUndoesShiftExpiry`).
- The dispatcher never reads the queues. It scans the store for Queued
  sessions, oldest first.

## Model

| member | source | states |
|---|---|---|
| Models.NewAgent | src/SupportChat.Domain/Models/Agent.cs:5-14 | a new agent keeps the given id, team, tier and shift times, accepts new chats, and has load 0 |
| Models.NewSession | src/SupportChat.Domain/Models/ChatSession.cs:5-13 | a new session is Queued, has no agent, team or poll time, and keeps its id and creation time |
| CapacityCalculator.MaxConcurrentForAgent | src/SupportChat.Domain/Services/CapacityCalculator.cs:7-19 | floor(10·multiplier): Junior 4, Mid 6, Senior 8, TeamLead 5, always between 4 and 8 |
| CapacityCalculator.TeamCapacity | src/SupportChat.Domain/Services/CapacityCalculator.cs:21-23 | the capacity is at most 8 per agent, and 0 when no agent is accepting |
| CapacityCalculator.MaxQueueSize | src/SupportChat.Domain/Services/CapacityCalculator.cs:25-26 | the ceiling r is floor(1.5·c), characterised by 2r ≤ 3c < 2r+2 |
| CapacityCalculator.TeamCapacityAppend | src/SupportChat.Domain/Services/CapacityCalculator.cs:21-23 | capacity is additive over concatenated rosters |
| CapacityCalculator.TeamCapacityCountsAcceptingOnly | src/SupportChat.Domain/Services/CapacityCalculator.cs:21-23 | capacity equals the capacity of the accepting agents alone |
| CapacityCalculator.TeamCapacityIgnoresLoad | src/SupportChat.Domain/Services/CapacityCalculator.cs:21-23 | rosters that agree on flags and tiers have equal capacity, whatever their loads |
| CapacityCalculator.MaxQueueSizeExamples | src/SupportChat.Domain/Services/CapacityCalculator.cs:25-26 | 4→6, 11→16, 21→31, 12→18, 0→0 |
| CapacityCalculator.MaxQueueSizeMonotone | src/SupportChat.Domain/Services/CapacityCalculator.cs:25-26 | for 0 ≤ c ≤ d: c ≤ ceiling(c) ≤ ceiling(d) |
| OfficeHoursService.TimeOfDayOf | src/SupportChat.Domain/Services/OfficeHoursService.cs:16 | the time of day is in [0, one day) and differs from the instant by whole days |
| OfficeHoursService.OfficeHours.IsWithinOfficeHours | src/SupportChat.Domain/Services/OfficeHoursService.cs:14-18 | in office exactly when start ≤ time of day < end |
| OfficeHoursService.StartInsideEndOutside | src/SupportChat.Domain/Services/OfficeHoursService.cs:17 | on any day, the start instant is in office and the end instant is not |
| OfficeHoursService.EmptyWindowNeverOpen | src/SupportChat.Domain/Services/OfficeHoursService.cs:17 | start ≥ end is never in office (no overnight wrap) |
| OfficeHoursService.OnlyTimeOfDayMatters | src/SupportChat.Domain/Services/OfficeHoursService.cs:16-17 | instants whole days apart get the same answer |
| OfficeHoursService.TimeOfDayShift | src/SupportChat.Domain/Services/OfficeHoursService.cs:16 | adding whole days to a time of day keeps it |
| OfficeHoursService.TimeOfDayShiftAny | src/SupportChat.Domain/Services/OfficeHoursService.cs:16 | adding whole days to any instant keeps its time of day |
| OfficeHoursService.UniqueRemainder | src/SupportChat.Domain/Services/OfficeHoursService.cs:16 | x = q·D + r with 0 ≤ r < D forces x mod D = r |
| TeamRoutingService.SelectMainTeam | src/SupportChat.Domain/Services/TeamRountingService.cs:11-15 | TeamA iff forced or in office; TeamC iff neither; never TeamB or Overflow |
| RoundRobinAssigner.AvailableMembers | src/SupportChat.Domain/Services/RoundRobinAssigner.cs:24-34 | an agent is available exactly when it is in the snapshot, in the team, of the tier, accepting, and below its allowance |
| RoundRobinAssigner.FirstAvailableTier | src/SupportChat.Domain/Services/RoundRobinAssigner.cs:27-36 | the first tier in preference order with an available agent; no earlier tier has one |
| RoundRobinAssigner.PickNext | src/SupportChat.Domain/Services/RoundRobinAssigner.cs:22-53 | an agent is returned exactly when some tier has an available agent; without one the index map is returned unchanged |
| RoundRobinAssigner.PickAtFirstTier | src/SupportChat.Domain/Services/RoundRobinAssigner.cs:36-46 | at the first tier with n available agents and stored index i, the pick is available[i mod n] and only that entry becomes (i+1) mod n |
| RoundRobinAssigner.PickIsEligible | src/SupportChat.Domain/Services/RoundRobinAssigner.cs:24-34 | a picked agent is in the snapshot and the team, is accepting, and has load below its allowance |
| RoundRobinAssigner.PickNoneIffNoneAvailable | src/SupportChat.Domain/Services/RoundRobinAssigner.cs:36-52 | no pick iff no tier has an available agent; then the index map is unchanged |
| RoundRobinAssigner.PickTouchesOneIndex | src/SupportChat.Domain/Services/RoundRobinAssigner.cs:40-46 | a pick rewrites only the (team, tier) entry, and the new index is below the number available |
| RoundRobinAssigner.NoTeamAgentsNoPick | src/SupportChat.Domain/Services/RoundRobinAssigner.cs:24-25 | no accepting agent in the team: null, index map unchanged |
| RoundRobinAssigner.PickPrefersEarlierTiers | src/SupportChat.Domain/Services/RoundRobinAssigner.cs:12-36 | the picked agent's tier is available and no earlier tier is |
| RoundRobinAssigner.PickRotates | src/SupportChat.Domain/Services/RoundRobinAssigner.cs:41-46 | with index i and n available: returns available[i mod n] and stores (i+1) mod n |
| RoundRobinAssigner.PickRepeatedly | src/SupportChat.Domain/Services/RoundRobinAssigner.cs:22-53 | k successive picks on an unchanged snapshot yield k results |
| RoundRobinAssigner.PicksCycle | src/SupportChat.Domain/Services/RoundRobinAssigner.cs:41-46 | from index i, k picks with i + k ≤ n return available[i], …, available[i+k-1] |
| RoundRobinAssigner.SmallMod | src/SupportChat.Domain/Services/RoundRobinAssigner.cs:45 | an index already below n is its own remainder |
| RoundRobinAssigner.RoundRobinVisitsEachOnce | src/SupportChat.Domain/Services/RoundRobinAssigner.cs:41-46 | with no stored index, n picks return each of the n available agents once, in order |
| RoundRobinAssigner.Assigner.constructor | src/SupportChat.Domain/Services/RoundRobinAssigner.cs:9-20 | the index map starts empty |
| RoundRobinAssigner.Assigner.TryPickNextAgent | src/SupportChat.Domain/Services/RoundRobinAssigner.cs:22-53 | the result and the new index map are those of `PickNext` on the old map |
| InMemoryAgentStore.Snapshot | src/SupportChat.Infrastructure/Stores/InMemoryAgentStore.cs:12 | the stored agents listed position by position in key order |
| InMemoryAgentStore.AgentStore.constructor | src/SupportChat.Infrastructure/Stores/InMemoryAgentStore.cs:8 | the store starts empty |
| InMemoryAgentStore.AgentStore.Upsert | src/SupportChat.Infrastructure/Stores/InMemoryAgentStore.cs:10 | inserts or replaces the entry at the agent's id; other ids are unchanged; no id is removed |
| InMemoryAgentStore.AgentStore.All | src/SupportChat.Infrastructure/Stores/InMemoryAgentStore.cs:12 | one stored agent per id, in key order |
| InMemoryAgentStore.AgentStore.AllIsExactlyStored | src/SupportChat.Infrastructure/Stores/InMemoryAgentStore.cs:12 | `All` holds every stored agent, only stored agents, and no id twice |
| InMemoryAgentStore.AgentStore.Get | src/SupportChat.Infrastructure/Stores/InMemoryAgentStore.cs:14 | the stored agent, or None exactly when the id is unknown |
| InMemoryChatStore.ChatStore.constructor | src/SupportChat.Infrastructure/Stores/InMemoryChatStore.cs:8 | the store starts empty |
| InMemoryChatStore.ChatStore.Add | src/SupportChat.Infrastructure/Stores/InMemoryChatStore.cs:10-14 | stores the session under its id, replacing only that entry, and returns it |
| InMemoryChatStore.ChatStore.Update | src/SupportChat.Infrastructure/Stores/InMemoryChatStore.cs:20 | replaces only the entry at the session's id, or inserts it when absent |
| InMemoryChatStore.ChatStore.Put | src/SupportChat.Infrastructure/Stores/InMemoryChatStore.cs:12-20 | the indexer write shared by `Add` and `Update` |
| InMemoryChatStore.ChatStore.TryGet | src/SupportChat.Infrastructure/Stores/InMemoryChatStore.cs:16 | found exactly when the id is stored, with the stored session; nothing changes |
| InMemoryChatStore.ChatStore.All | src/SupportChat.Infrastructure/Stores/InMemoryChatStore.cs:18 | one stored session per id, in key order |
| InMemoryChatStore.ChatStore.AllIsExactlyStored | src/SupportChat.Infrastructure/Stores/InMemoryChatStore.cs:18 | `All` holds every stored session, only stored sessions, and no id twice |
| Queues.ChatQueue.constructor | src/SupportChat.Infrastructure/Queues/ChatQueue.cs:9-17 | an empty queue of the given capacity in DropWrite mode |
| Queues.ChatQueue.TryEnqueue | src/SupportChat.Infrastructure/Queues/ChatQueue.cs:13-19 | appends at the tail when not full; when full the contents stay; reports success when not full or in DropWrite mode; length never exceeds capacity |
| Queues.ChatQueue.TryDequeue | src/SupportChat.Infrastructure/Queues/ChatQueue.cs:21 | removes and returns the oldest id |
| Queues.FifoOrder | src/SupportChat.Infrastructure/Queues/ChatQueue.cs:19-21 | two ids enqueued on an empty queue come out oldest first |
| Queues.DropWriteLosesSilently | src/SupportChat.Infrastructure/Queues/ChatQueue.cs:13-19 | a write to a full DropWrite queue reports success and changes nothing |
| SessionCounts.LastSeen | src/SupportChat.Api/BackgorundServices/InactivityMonitorWorker.cs:46 | the last poll time if any, else the creation time |
| SessionCounts.Count | src/SupportChat.Api/Services/ChatAdmissionService.cs:68-72 | the number of matching sessions is at most the number of sessions |
| SessionCounts.CountUnchanged | src/SupportChat.Api/Services/ChatAdmissionService.cs:68-72 | rewriting a session without changing whether it matches keeps the count |
| SessionCounts.CountUpdate | src/SupportChat.Api/Services/ChatAdmissionService.cs:68-72 | the count after writing one key, in terms of the old and new entries |
| SessionCounts.CountRemoveSubset | src/SupportChat.Api/BackgorundServices/InactivityMonitorWorker.cs:51-65 | removing a sub-population from the matches lowers the count by its size |
| SessionCounts.CountSeq | src/SupportChat.Api/Services/ChatAdmissionService.cs:68-72 | the count over a snapshot is at most its length |
| SessionCounts.CountSeqSnoc | src/SupportChat.Api/Services/ChatAdmissionService.cs:68-72 | counting a snapshot one more element at a time |
| SessionCounts.IsStale | src/SupportChat.Api/BackgorundServices/InactivityMonitorWorker.cs:46-48 | with a non-negative threshold, a stale session was last seen strictly before now |
| SessionCounts.CountSeqNoneMatch | src/SupportChat.Api/Services/ChatAdmissionService.cs:68-72 | a snapshot with no matching session counts 0 |
| SessionCounts.CountSeqIsCount | src/SupportChat.Api/Services/ChatAdmissionService.cs:53-72 | counting over an exact snapshot of the store equals counting over the store |
| EngineInvariant.InitialStateIsConsistent | src/SupportChat.Domain/Models/Agent.cs:14 | agents with load 0 and no sessions satisfy the invariant |
| EngineInvariant.AddUnboundSessionKeepsInv | src/SupportChat.Api/Services/ChatAdmissionService.cs:103-111 | adding a fresh Queued or Rejected session without an agent keeps the invariant |
| EngineInvariant.RewriteSessionKeepsInv | src/SupportChat.Api/Controllers/ChatsController.cs:61-67 | rewriting a session without changing its binding or whether it holds a slot keeps the invariant |
| EngineInvariant.RewriteAgentsKeepsInv | src/SupportChat.Api/BackgorundServices/ShiftMonitorWorker.cs:25-28 | rewriting agents without changing loads or tiers keeps the invariant |
| EngineInvariant.BindSessionKeepsInv | src/SupportChat.Api/BackgorundServices/ChatDispatcherWorker.cs:54-59 | binding a Queued session to an agent below its allowance and raising that load by one keeps the invariant |
| EngineInvariant.HistoryComposes | src/SupportChat.Domain/Models/ChatSession.cs:5-10 | identity and history preservation compose across operations |
| EngineInvariant.AddFreshKeepsHistory | src/SupportChat.Api/Services/ChatAdmissionService.cs:103-107 | adding under a fresh id overwrites no existing session |
| ChatAdmissionService.InOffice | src/SupportChat.Api/Services/ChatAdmissionService.cs:48-49 | the forced flag always counts as in office; when not forced, an empty window (start ≥ end) never does |
| ChatAdmissionService.MainTeam | src/SupportChat.Api/Services/ChatAdmissionService.cs:48-51 | the main team is TeamA exactly when admission's in-office flag holds, otherwise TeamC |
| ChatAdmissionService.Backlog | src/SupportChat.Api/Services/ChatAdmissionService.cs:67-72 | the backlog is at most the number of sessions, and 0 when no session of the team is Queued, Assigned or Active |
| ChatAdmissionService.MainHasRoom | src/SupportChat.Api/Services/ChatAdmissionService.cs:56-74 | room implies a positive ceiling; without a positive override, a main team with no capacity never has room |
| ChatAdmissionService.OverflowEnabled | src/SupportChat.Api/Services/ChatAdmissionService.cs:76-78 | enabled only in office and only when some overflow agent is accepting |
| ChatAdmissionService.OverflowCeiling | src/SupportChat.Api/Services/ChatAdmissionService.cs:80-82 | the ceiling r is floor(1.5·c) of the accepting overflow agents' capacity c: 2r ≤ 3c < 2r+2, and c ≤ r |
| ChatAdmissionService.OverflowHasRoom | src/SupportChat.Api/Services/ChatAdmissionService.cs:90 | room implies overflow is enabled and the accepting overflow agents have positive capacity |
| ChatAdmissionService.MainCeiling | src/SupportChat.Api/Services/ChatAdmissionService.cs:56-65 | the override when set and positive; otherwise floor(1.5·c) of the main team's capacity |
| ChatAdmissionService.TargetTeam | src/SupportChat.Api/Services/ChatAdmissionService.cs:92-105 | the chosen lane is never TeamB |
| ChatAdmissionService.MainLaneIffRoom | src/SupportChat.Api/Services/ChatAdmissionService.cs:68-96 | the main lane is chosen iff the main backlog is below its ceiling |
| ChatAdmissionService.OverflowLaneConditions | src/SupportChat.Api/Services/ChatAdmissionService.cs:76-100 | overflow iff: main full, in office, some overflow agent accepting, and overflow backlog below floor(1.5·overflow capacity), with no override |
| ChatAdmissionService.RejectIffNoLane | src/SupportChat.Api/Services/ChatAdmissionService.cs:101-105 | rejected iff neither lane has room |
| ChatAdmissionService.MainAdmissionMonotone | src/SupportChat.Api/Services/ChatAdmissionService.cs:74-96 | a backlog no larger than an admitted one is admitted to the main lane too |
| ChatAdmissionService.RejectedSession | src/SupportChat.Api/Services/ChatAdmissionService.cs:103 | a Rejected session with no team and no agent |
| ChatAdmissionService.QueuedSession | src/SupportChat.Api/Services/ChatAdmissionService.cs:107-111 | a Queued session of the target team with no agent |
| ChatAdmissionService.OverwriteTwice | src/SupportChat.Api/Services/ChatAdmissionService.cs:107-120 | `Update` after `Add` of the same id leaves only the second value |
| ChatAdmissionService.AdmissionService.constructor | src/SupportChat.Api/Services/ChatAdmissionService.cs:21-41 | keeps the stores, queues and settings it is given |
| ChatAdmissionService.AdmissionService.ChooseLane | src/SupportChat.Api/Services/ChatAdmissionService.cs:45-100 | the lane computed step by step is `TargetTeam` on the two snapshots; nothing changes |
| ChatAdmissionService.AdmissionService.PushToLane | src/SupportChat.Api/Services/ChatAdmissionService.cs:113-115 | the id goes to the overflow queue iff the lane is Overflow, else to the main queue; the other queue is unchanged |
| ChatAdmissionService.AdmissionService.AdmitTo | src/SupportChat.Api/Services/ChatAdmissionService.cs:107-124 | one Queued session of the lane is added and pushed; if the queue refuses, it becomes Rejected, keeps its team, and the result is not accepted |
| ChatAdmissionService.AdmissionService.CreateChat | src/SupportChat.Api/Services/ChatAdmissionService.cs:43-125 | exactly one session is added under the fresh id; the result, session and queues follow the lane; no agent and no other session change; with DropWrite queues, accepted iff a lane has room; the invariant is kept |
| ChatDispatcherWorker.QueuedOfMembers | src/SupportChat.Api/BackgorundServices/ChatDispatcherWorker.cs:43-44 | the candidates are exactly the Queued sessions of the team |
| ChatDispatcherWorker.SortByCreation | src/SupportChat.Api/BackgorundServices/ChatDispatcherWorker.cs:45 | ordering keeps the length |
| ChatDispatcherWorker.SortByCreationCorrect | src/SupportChat.Api/BackgorundServices/ChatDispatcherWorker.cs:45 | the order is by creation time and is a permutation of the candidates |
| ChatDispatcherWorker.SortByCreationStable | src/SupportChat.Api/BackgorundServices/ChatDispatcherWorker.cs:45 | the sort is stable: for every creation time, the sessions created then keep their relative order |
| ChatDispatcherWorker.InsertIsStable | src/SupportChat.Api/BackgorundServices/ChatDispatcherWorker.cs:45 | an inserted session goes ahead of every session of its own creation time and leaves their order alone |
| ChatDispatcherWorker.InsertByCreation | src/SupportChat.Api/BackgorundServices/ChatDispatcherWorker.cs:45 | inserting one session adds one element |
| ChatDispatcherWorker.InsertPermutes | src/SupportChat.Api/BackgorundServices/ChatDispatcherWorker.cs:45 | insertion adds exactly the new session to the multiset |
| ChatDispatcherWorker.InsertKeepsSorted | src/SupportChat.Api/BackgorundServices/ChatDispatcherWorker.cs:45 | insertion keeps creation order |
| ChatDispatcherWorker.SortKeepsDistinctIds | src/SupportChat.Api/BackgorundServices/ChatDispatcherWorker.cs:43-46 | ordering keeps ids distinct |
| ChatDispatcherWorker.PassList | src/SupportChat.Api/BackgorundServices/ChatDispatcherWorker.cs:43-46 | the pass's list holds each Queued session of the team exactly once, as stored, oldest first |
| ChatDispatcherWorker.BindTo | src/SupportChat.Api/BackgorundServices/ChatDispatcherWorker.cs:57-58 | the session becomes Assigned to the agent; id, creation time, team and poll time stay |
| ChatDispatcherWorker.OfferStep | src/SupportChat.Api/BackgorundServices/ChatDispatcherWorker.cs:50-59 | one offer: the index map becomes the assigner's; with no pick neither store changes |
| ChatDispatcherWorker.PassResult | src/SupportChat.Api/BackgorundServices/ChatDispatcherWorker.cs:48-60 | the whole pass over a list is offers in turn; agents are only added, never removed |
| ChatDispatcherWorker.PassResultStep | src/SupportChat.Api/BackgorundServices/ChatDispatcherWorker.cs:48-60 | the pass over the rest of the list, after one offer, reaches the same state |
| ChatDispatcherWorker.OfferStepMatches | src/SupportChat.Api/BackgorundServices/ChatDispatcherWorker.cs:50-59 | a pick by `PickNext` on the live roster, with the picked agent's load raised and the session bound to it, is exactly `OfferStep` |
| ChatDispatcherWorker.SaturatedPassChangesNothing | src/SupportChat.Api/BackgorundServices/ChatDispatcherWorker.cs:48-52 | once no agent of the team can be picked, the rest of the pass changes neither store |
| ChatDispatcherWorker.UntouchedByOtherPass | src/SupportChat.Api/BackgorundServices/ChatDispatcherWorker.cs:30-33 | another team's pass leaves this team's Queued sessions and its agents as they were |
| ChatDispatcherWorker.SameTeamSameAvailable | src/SupportChat.Api/BackgorundServices/ChatDispatcherWorker.cs:41 | rosters that agree on one team's agents offer that team the same available agents in every tier |
| ChatDispatcherWorker.DispatchedKept | src/SupportChat.Api/BackgorundServices/ChatDispatcherWorker.cs:30-33 | another team's pass keeps this team settled: still saturated if a session waits, and bound sessions still no newer than waiting ones |
| ChatDispatcherWorker.PassSettles | src/SupportChat.Api/BackgorundServices/ChatDispatcherWorker.cs:39-61 | a team's pass, reached with the team untouched, leaves it settled |
| ChatDispatcherWorker.FourPassesSettle | src/SupportChat.Api/BackgorundServices/ChatDispatcherWorker.cs:30-33 | after four passes for four distinct teams, each of them is settled |
| ChatDispatcherWorker.DispatchEffectComposes | src/SupportChat.Api/BackgorundServices/ChatDispatcherWorker.cs:30-33 | the effect of two passes is an effect of one: a session bound by the first is left alone by the second |
| ChatDispatcherWorker.DispatchKeepsHistory | src/SupportChat.Api/BackgorundServices/ChatDispatcherWorker.cs:54-59 | from a consistent state dispatch keeps agent identities and never rebinds a bound session |
| ChatDispatcherWorker.PassEnds | src/SupportChat.Api/BackgorundServices/ChatDispatcherWorker.cs:48-60 | after the pass, each session is unchanged or was bound by it; a still-queued session of the team implies saturation; bound sessions are no newer than waiting ones |
| ChatDispatcherWorker.Dispatcher.constructor | src/SupportChat.Api/BackgorundServices/ChatDispatcherWorker.cs:14-24 | keeps the stores and the assigner it is given |
| ChatDispatcherWorker.Dispatcher.Bind | src/SupportChat.Api/BackgorundServices/ChatDispatcherWorker.cs:54-59 | the agent's load rises by one and the session is stored bound to it; nothing else changes |
| ChatDispatcherWorker.Dispatcher.AssignOne | src/SupportChat.Api/BackgorundServices/ChatDispatcherWorker.cs:50-59 | the pick is `PickNext` on the live roster; no pick leaves both stores unchanged and the team saturated; a pick binds an accepting team agent below its allowance |
| ChatDispatcherWorker.Dispatcher.OfferNext | src/SupportChat.Api/BackgorundServices/ChatDispatcherWorker.cs:50-59 | one iteration: the new stores and index map are `OfferStep` of the old ones; the bound prefix grows by the offered session or the team is saturated |
| ChatDispatcherWorker.Dispatcher.OfferInTurn | src/SupportChat.Api/BackgorundServices/ChatDispatcherWorker.cs:48-60 | the new stores and index map are exactly `PassResult` of the old ones over the list, so each session gets the agent `PickNext` returns on the roster left by the earlier offers; the first `cut` sessions end bound; after the first refusal the team is saturated |
| ChatDispatcherWorker.Dispatcher.DispatchTeam | src/SupportChat.Api/BackgorundServices/ChatDispatcherWorker.cs:39-61 | the new state is exactly `PassResult` over the team's Queued sessions sorted by creation time; only the team's agents change, and only by load within allowance; changed sessions went from Queued to Assigned with an accepting agent of the team, oldest first; a waiting session implies saturation; the invariant is kept |
| ChatDispatcherWorker.Dispatcher.Tick | src/SupportChat.Api/BackgorundServices/ChatDispatcherWorker.cs:30-33 | the combined dispatch effect of TeamA, TeamB, TeamC and Overflow; afterwards, for each of the four teams, a waiting session implies the team is saturated, and every session the tick bound is no newer than any of the team's sessions still waiting |
| InactivityMonitorWorker.Reclaim | src/SupportChat.Api/BackgorundServices/InactivityMonitorWorker.cs:43-64 | only the status changes; it becomes Inactive iff it was Inactive or the session is unfinished and strictly past the threshold |
| InactivityMonitorWorker.ReclaimAll | src/SupportChat.Api/BackgorundServices/InactivityMonitorWorker.cs:41-66 | every session reclaimed independently; keys kept |
| InactivityMonitorWorker.ReleaseAll | src/SupportChat.Api/BackgorundServices/InactivityMonitorWorker.cs:51-61 | every agent's load is drained by its own count of stale, slot-holding sessions; no agent is added or removed |
| InactivityMonitorWorker.Drain | src/SupportChat.Api/BackgorundServices/InactivityMonitorWorker.cs:56-58 | guarded decrements never take a positive load below 0 and never touch a non-positive one |
| InactivityMonitorWorker.DrainStep | src/SupportChat.Api/BackgorundServices/InactivityMonitorWorker.cs:56-58 | one more stale session is one more guarded decrement |
| InactivityMonitorWorker.ReleaseFor | src/SupportChat.Api/BackgorundServices/InactivityMonitorWorker.cs:51-61 | one session's effect on agents keeps the keys |
| InactivityMonitorWorker.ReclaimIdempotent | src/SupportChat.Api/BackgorundServices/InactivityMonitorWorker.cs:43-64 | reclaiming twice at one instant is reclaiming once |
| InactivityMonitorWorker.NothingStaleAfterTick | src/SupportChat.Api/BackgorundServices/InactivityMonitorWorker.cs:43-65 | after a tick no stale session holds a slot of any agent |
| InactivityMonitorWorker.TickIdempotent | src/SupportChat.Api/BackgorundServices/InactivityMonitorWorker.cs:43-64 | a second tick at the same instant changes neither sessions nor agents |
| InactivityMonitorWorker.TickKeepsInv | src/SupportChat.Api/BackgorundServices/InactivityMonitorWorker.cs:51-65 | the tick keeps the invariant: each released slot is one subtracted load, and no load goes negative |
| InactivityMonitorWorker.ReleaseOneAgent | src/SupportChat.Api/BackgorundServices/InactivityMonitorWorker.cs:51-61 | one agent's drained load is its count of remaining slot-holding sessions, within allowance |
| InactivityMonitorWorker.ReclaimKeepsBindings | src/SupportChat.Api/BackgorundServices/InactivityMonitorWorker.cs:64-65 | reclaiming keeps every binding and its agreement with the status |
| InactivityMonitorWorker.TickKeepsHistory | src/SupportChat.Api/BackgorundServices/InactivityMonitorWorker.cs:56-65 | ids, creation times and bindings stay, agent identities stay, and no positive load rises |
| InactivityMonitorWorker.InactivityMonitor.constructor | src/SupportChat.Api/BackgorundServices/InactivityMonitorWorker.cs:14-26 | keeps the stores it is given |
| InactivityMonitorWorker.InactivityMonitor.InspectChat | src/SupportChat.Api/BackgorundServices/InactivityMonitorWorker.cs:43-65 | one session is reclaimed and its agent released, as `Reclaim` and `ReleaseFor` say |
| InactivityMonitorWorker.InactivityMonitor.MarkInactiveChats | src/SupportChat.Api/BackgorundServices/InactivityMonitorWorker.cs:37-67 | sessions become `ReclaimAll` and agents `ReleaseAll` of the state before the tick |
| ShiftMonitorWorker.Expire | src/SupportChat.Api/BackgorundServices/ShiftMonitorWorker.cs:25-29 | only the flag changes; afterwards it is on iff it was on and now < shift end |
| ShiftMonitorWorker.ExpireAll | src/SupportChat.Api/BackgorundServices/ShiftMonitorWorker.cs:23-30 | every agent checked independently; keys kept |
| ShiftMonitorWorker.ExpireAllIdempotent | src/SupportChat.Api/BackgorundServices/ShiftMonitorWorker.cs:25-28 | a second tick at the same instant changes nothing |
| ShiftMonitorWorker.ExpireIgnoresShiftStart | src/SupportChat.Api/BackgorundServices/ShiftMonitorWorker.cs:25 | the shift start is never consulted |
| ShiftMonitorWorker.ExpireAllKeepsInv | src/SupportChat.Api/BackgorundServices/ShiftMonitorWorker.cs:27-28 | the tick keeps the invariant |
| ShiftMonitorWorker.ExpireAllKeepsIdentity | src/SupportChat.Api/BackgorundServices/ShiftMonitorWorker.cs:25-28 | identities and loads stay, and no agent is switched on |
| ShiftMonitorWorker.ShiftMonitor.constructor | src/SupportChat.Api/BackgorundServices/ShiftMonitorWorker.cs:11-15 | keeps the store it is given |
| ShiftMonitorWorker.ShiftMonitor.Tick | src/SupportChat.Api/BackgorundServices/ShiftMonitorWorker.cs:21-30 | agents become `ExpireAll` of the old agents; key order unchanged |
| OverflowActivationWorker.EnableOverflow | src/SupportChat.Api/BackgorundServices/OverflowActivationWorker.cs:40-79 | enabling requires being in office with TeamA as the main team; outside office hours overflow is never enabled |
| OverflowActivationWorker.EnableIffMainFull | src/SupportChat.Api/BackgorundServices/OverflowActivationWorker.cs:79 | on the same state, overflow is enabled iff in office and admission finds no room in the main lane |
| OverflowActivationWorker.EnableIgnoresPressureSetting | src/SupportChat.Api/BackgorundServices/OverflowActivationWorker.cs:74-79 | the pressure setting does not affect the decision |
| OverflowActivationWorker.SetOverflowFlag | src/SupportChat.Api/BackgorundServices/OverflowActivationWorker.cs:82-86 | an overflow agent's flag becomes the decision; any other agent is unchanged |
| OverflowActivationWorker.SetOverflowFlags | src/SupportChat.Api/BackgorundServices/OverflowActivationWorker.cs:82-86 | every agent rewritten by `SetOverflowFlag`; keys kept |
| OverflowActivationWorker.OutsideOfficeOverflowOff | src/SupportChat.Api/BackgorundServices/OverflowActivationWorker.cs:44-84 | outside office hours, when not forced, every overflow agent ends switched off |
| OverflowActivationWorker.TeamMembersIgnoreOverflowFlags | src/SupportChat.Api/BackgorundServices/OverflowActivationWorker.cs:52 | the members of a non-overflow team are unchanged by rewriting overflow flags |
| OverflowActivationWorker.DecisionIgnoresOverflowFlags | src/SupportChat.Api/BackgorundServices/OverflowActivationWorker.cs:46-79 | rewriting overflow flags never changes the decision |
| OverflowActivationWorker.TickIdempotent | src/SupportChat.Api/BackgorundServices/OverflowActivationWorker.cs:79-86 | a second tick on the resulting state changes nothing |
| OverflowActivationWorker.TickKeepsInv | src/SupportChat.Api/BackgorundServices/OverflowActivationWorker.cs:82-86 | the tick keeps the invariant |
| OverflowActivationWorker.TickKeepsIdentity | src/SupportChat.Api/BackgorundServices/OverflowActivationWorker.cs:82-86 | identities and loads stay |
| OverflowActivationWorker.ActivationUndoesShiftExpiry | src/SupportChat.Api/BackgorundServices/OverflowActivationWorker.cs:82-86 | an overflow agent past its shift end, switched off by the shift monitor, is switched back on when overflow is enabled |
| OverflowActivationWorker.OverflowActivator.constructor | src/SupportChat.Api/BackgorundServices/OverflowActivationWorker.cs:18-34 | keeps the stores and settings it is given |
| OverflowActivationWorker.OverflowActivator.ComputeEnable | src/SupportChat.Api/BackgorundServices/OverflowActivationWorker.cs:40-79 | the decision computed step by step is `EnableOverflow`, with admission's main team, capacity, ceiling, override and backlog; nothing changes |
| OverflowActivationWorker.OverflowActivator.Tick | src/SupportChat.Api/BackgorundServices/OverflowActivationWorker.cs:40-86 | agents become `SetOverflowFlags` of the old agents with the decision taken on the old state; key order unchanged; sessions untouched |
| ChatsController.PollSession | src/SupportChat.Api/Controllers/ChatsController.cs:61-65 | the poll time is set; Assigned becomes Active and every other status stays; id, times, agent and team stay |
| ChatsController.PollTwice | src/SupportChat.Api/Controllers/ChatsController.cs:64-65 | a second poll only moves the poll time |
| ChatsController.PollDoesNotRevive | src/SupportChat.Api/Controllers/ChatsController.cs:64-65 | no status other than Assigned changes; finished, slot-holding and backlog status are kept |
| ChatsController.PolledIsFresh | src/SupportChat.Api/Controllers/ChatsController.cs:61 | right after a poll a session is not stale for any non-negative threshold |
| ChatsController.PollKeepsInv | src/SupportChat.Api/Controllers/ChatsController.cs:61-67 | polling keeps the invariant and every team's backlog count |
| ChatsController.PollKeepsHistory | src/SupportChat.Api/Controllers/ChatsController.cs:61-67 | polling keeps ids, creation times and bindings |
| ChatsController.Controller.constructor | src/SupportChat.Api/Controllers/ChatsController.cs:17-25 | keeps the store and the admission service it is given |
| ChatsController.Controller.Create | src/SupportChat.Api/Controllers/ChatsController.cs:27-36 | the admission result for the fresh id is returned: exactly one session is added under it, lane, session and queues follow `TargetTeam` on the state before, agents are unchanged, the invariant is kept; 429 iff not accepted; an accepted result always carries a team, and never TeamB |
| ChatsController.Controller.Get | src/SupportChat.Api/Controllers/ChatsController.cs:38-53 | not found iff the id is unknown; otherwise the stored session; nothing changes |
| ChatsController.Controller.Poll | src/SupportChat.Api/Controllers/ChatsController.cs:55-76 | not found and no change for an unknown id; otherwise only that session changes, to its polled form |
| Scenarios.Seeded | src/SupportChat.Api/Program.cs:63-95 | a seeded agent with the given id, team, tier and flag, load 0, and a shift from one hour before to seven hours after seeding |
| Scenarios.SeedRoster | src/SupportChat.Api/Program.cs:63-95 | 16 agents with ids 0 to 15 and load 0; the last six are the overflow team, with the given flag |
| Scenarios.SeedTeams | src/SupportChat.Api/Program.cs:67-94 | each team's members in the roster are its own block |
| Scenarios.SeedCapacities | src/SupportChat.Api/Program.cs:63-95 | team A 21/31, team B 22/33, team C 12/18; overflow 0 while off and 24/36 once on |
| Scenarios.DaytimeAdmission | src/SupportChat.Api/Services/ChatAdmissionService.cs:74-105 | in office, on the seeded roster: TeamA below backlog 31; then rejection and the overflow switch on; then Overflow below backlog 36 |
| Scenarios.NightAdmission | src/SupportChat.Api/Services/ChatAdmissionService.cs:74-105 | outside office hours: TeamC below backlog 18, otherwise rejection, and never Overflow |

## Left out

- Concurrency is not modelled: the assigner's lock, the concurrent dictionaries, and races between workers and requests. Each operation is one atomic step on the shared state.
- The workers' `ExecuteAsync` loops, `Task.Delay` and cancellation are not modelled. One iteration of each loop body is one method.
- The queue's asynchronous dequeue is not modelled. `TryDequeue` is its synchronous FIFO contract, and an empty queue yields None.
- Channel internals are not modelled. The queue is a sequence of ids with a capacity, and its constructor requires a capacity of at least one, as a bounded channel does.
- Clocks are not modelled. `now` is a parameter in ticks.
- Session creation time is the `now` passed to admission. The source takes it from a separate clock read in the session's initialiser.
- Local-time conversion is not modelled. The time of day is the instant modulo one day, taken as already local.
- Guid generation is not modelled. A new session's id is a parameter, required not to be a key of the store.
- `IConfiguration` lookups become the `Settings` datatype and method parameters. These cover the force-office flag, the main-queue override, the pressure flag and the inactivity threshold.
- Office hours are given as two time-of-day values. Parsing them is not modelled.
- Dictionary enumeration order is unspecified in the source. The model enumerates in first-insertion order.
- HTTP response bodies are not modelled. An endpoint returns a status and the session or result the body is built from.
- Program.cs dependency wiring is not modelled. Its seed roster appears only as the `Scenarios` fixture.
- Queues.ChatQueue.constructor: the source builds every queue in DropWrite mode. The model also has a Wait mode that no constructor produces, so that admission is verified for a queue that can refuse a write.
- CapacityCalculator.MaxConcurrentForAgent: the source's fallback arm for an unknown tier, which yields 0, cannot occur. The tier type here has exactly the four named values.
- Mutation through shared references is not modelled. The source mutates agent and session objects in place and then writes them back, so a snapshot taken earlier sees the change. The model re-reads the store by id instead. Because every in-place write is followed by `Upsert` or `Update` of the same object, the sequential effect is the same.
