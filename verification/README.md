# A model of the host's concurrency control

This project models the parts of agentplug that decide who runs, when and with
what: the traffic broker, the plugin pool's queues, admission, store swap and
lanes, the token and git caches, the handoff of task results, and five
algorithms around them. Each is stated as a state machine or a function, proved
correct over every run or every input, and tied to imperative code with the
source's own loops and fields.

How the files correspond to the code:

- `SmoothRoundRobin.dfy`, `TrafficShift.dfy`, `Broker.dfy`, `BrokerTable.dfy`,
  `RepeatedShift.dfy`: `broker.rs`. The selection is the "cup game"; the bound
  over every subset of providers is what gives the lag bound.
- `TicketQueue.dfy`, `Admission.dfy`, `StoreSwap.dfy`, `Lane.dfy`: the pool and the lanes of `registry.rs`.
- `TokenCache.dfy`: `github_auth.rs`.
- `GitCache.dfy`, `GitCalls.dfy`, `GitSchedules.dfy`: the git cache of `imports.rs`, the calls
  around it, and what every schedule of them can and cannot return.
- `TaskResults.dfy`, `TaskHandoff.dfy`: `task_results.rs` and `task.rs`.
- `ScriptTokens.dfy`, `ModuleSplitter.dfy`: `exec_js.rs`. `ProcessTree.dfy`, `Recorder.dfy`: `process_tree.rs`, `action_recorder.rs`.
- `RegistryWalk.dfy`, `WorkerGate.dfy`: the registry walk of the runner's `daemon.rs`, and `exec_pool.rs`.
- `Wrappers.dfy`: option and result types, names, saturating subtraction, and finite sums.

Every section the source runs under a held lock is one step. Steps of different
callers interleave freely; a run takes an arbitrary sequence of steps and skips
those that cannot happen. Clocks, file contents, child processes
and wake-ups are parameters of the steps, so each theorem holds for all of them.
Where a class stands for the source's mutable state, its methods say which step
they are, and its history is kept in ghost fields.

## What the code does not promise

Stated properties that turned out false of the code are kept with an example and
the exact condition:

- A traffic shift can take nothing from the others although its step is positive
  and they have weight: `TrafficShift.StallExample`, exactly when
  `TrafficShift.TakesNothingExactly` says. The target still gains the step, up to
  100, and the stall lasts: `RepeatedShift.StallLastsForever`. Repeated shifts
  complete exactly when they never meet such weights
  (`RepeatedShift.CompletesUnlessStalled`); with steps of 1 they never do once
  two of the others before the last have weight
  (`RepeatedShift.StepsOfOneComplete`).
- After a store swap request, a failed dispatch pays its debt before its slot is
  emptied, so the owed count can be below the number of slots with the old bytes:
  `StoreSwap.FailedDispatchWindow`. It covers them all as long as no dispatch on
  the old bytes has failed since the return, and over any run exactly as long as
  no debt is paid with none to spare (`StoreSwap.CoversEveryWithoutFailures`,
  `StoreSwap.CoversEveryExactly`).
- One more dispatch per slot on the old bytes is not the most there can be: a
  failed dispatch that is retried on re-installed old bytes unlocks its slot
  without looking for a debt, so the next one completes on them too
  (`StoreSwap.RetryUnderWayAtReturn`). It is the most if and only if the slot's
  holder was not so retrying when the request returned, and two are in every case
  (`StoreSwap.AtMostOneMore`, `StoreSwap.AtMostTwoMore`).
- A recalled git index answer need not be git's answer for the identity read at
  the start of the call, because the call that filed it read the identity before
  it ran git: every schedule gives it if and only if no change of an index that is
  there changes git's answer (`GitSchedules.AnsweredForReadExactly`). Nor need it
  be git's answer at any instant of the call, because an identity (modification
  time and length) can return: every schedule stays within the calls if and only
  if none returns over another answer (`GitSchedules.AnsweredWithinExactly`).
- `poll_entry` can never set `orphaned`: the idle limit is at or after the
  deadline, so the deadline's label is the one a killed task carries
  (`TaskHandoff.TasksAreNeverOrphaned`). That is why a stored reply, which has no
  such label, loses nothing.
- A stored reply is cut at 64 KiB, so a caller that asks for more sees less than
  the live registry would show: `TaskHandoff.HandoffKeepsReply`.
- Pools of fewer than 8 slots can be filled to the last slot by metered work:
  `Admission.SmallPoolFills`.

## Model

| member | source | states |
|---|---|---|
| `SmoothRoundRobin.TurnKeepsBalanced` | crates/agentplug-host/src/broker.rs:63-93 | one selection keeps, for every set of k of the m routable providers, that their currents sum to at most k·W·(1/(k+1)+…+1/m), that every current is above −W and that all sum to zero |
| `SmoothRoundRobin.PlayIsBalanced` | crates/agentplug-host/src/broker.rs:63-93 | those bounds hold after any number of selections from zero |
| `SmoothRoundRobin.Ledger` | crates/agentplug-host/src/broker.rs:79-91 | a current is the weight earned in all selections less W per win |
| `SmoothRoundRobin.CurrentBound` | crates/agentplug-host/src/broker.rs:63-93 | after any number of selections every current is strictly above −W and at most W·(1/2+…+1/m) |
| `SmoothRoundRobin.LagBound` | crates/agentplug-host/src/broker.rs:63-93 | so every provider is less than one turn ahead of its share and at most 1/2+…+1/m turns behind it |
| `SmoothRoundRobin.ExactProportion` | crates/agentplug-host/src/broker.rs:57-93 | after j·W selections each provider was chosen exactly j·weight times and every current is back to 0, for every j |
| `TrafficShift.CapsNeverBind` | crates/agentplug-host/src/broker.rs:270-282 | before the last provider neither cap ever binds: the share is the rounded-down proportional part |
| `TrafficShift.TakenBounds` | crates/agentplug-host/src/broker.rs:263-287 | the others lose at most `reduction`; exactly that when there is one of them, more than reduction−(m−1) when there are m ≥ 2 |
| `TrafficShift.TakenInFull` | crates/agentplug-host/src/broker.rs:270-287 | the reduction is taken in full if and only if the last provider can carry what the rounding left over |
| `TrafficShift.TakesNothingExactly` | crates/agentplug-host/src/broker.rs:270-287 | a positive reduction takes nothing if and only if the last provider has weight 0 and every other part rounds to 0 |
| `TrafficShift.StallExample` | crates/agentplug-host/src/broker.rs:270-287 | such a stall is possible: weights 1, 1, 0 and a step of 1 |
| `TrafficShift.ShareInRange` | crates/agentplug-host/src/broker.rs:272-281 | no share is negative or exceeds its provider's weight, so no weight underflows |
| `Broker.SelectKeepsSum` | crates/agentplug-host/src/broker.rs:57-101 | a selection keeps the sum of the whole currents map, entries of providers that are gone included |
| `Broker.SelectIsTurn` | crates/agentplug-host/src/broker.rs:63-93 | a round-robin selection over the providers is one turn of the weighted game on the routable ones |
| `Broker.LeastLoadedSelects` | crates/agentplug-host/src/broker.rs:94-99 | a least-loaded selection takes a routable provider with at most as many dispatches in flight as any routable one and fewer than every routable one before it, and leaves the currents alone |
| `Broker.SelectsIfAnyRoutable` | crates/agentplug-host/src/broker.rs:48-61 | something is selected if and only if some provider is not draining and has weight |
| `Broker.RouteIsTurn` | crates/agentplug-host/src/broker.rs:198-211 | a route, seen through weights, currents and dispatch counters, is one turn of the game |
| `Broker.ServeFollowsPlay` | crates/agentplug-host/src/broker.rs:183-211 | a stretch of routes and lease drops plays as many turns as it has routes |
| `SmoothRoundRobin.LagBoundFrom` | crates/agentplug-host/src/broker.rs:63-93 | from any currents between `low` and `high`: less than one turn and the start's distance to `low` ahead, at most 1/2+…+1/m turns and its distance to `high` behind |
| `SmoothRoundRobin.CurrentBoundFrom` | crates/agentplug-host/src/broker.rs:63-93 | and every current stays above low−W and at most W·(1/2+…+1/m) over `high` |
| `Broker.FairShareFrom` | crates/agentplug-host/src/broker.rs:57-93 | that lag bound for the dispatch counters over every stretch of routes and drops, from whatever currents earlier providers left |
| `Broker.FairShare` | crates/agentplug-host/src/broker.rs:57-93 | less than one turn ahead, at most 1/2+…+1/m behind, from zero currents |
| `Broker.ExactShare` | crates/agentplug-host/src/broker.rs:57-93 | exact proportion of the dispatch counters over every such stretch of j·W routes, with all currents back to 0 |
| `BrokerTable.StepKeepsGood` | crates/agentplug-host/src/broker.rs:114-311 | every operation keeps: ids distinct, weights 0..100, draining only at weight 0, in-flight counts equal to the live leases, currents summing to 0, every live lease's provider registered |
| `BrokerTable.ReachableIsGood` | crates/agentplug-host/src/broker.rs:114-311 | that invariant in every reachable state, in any order of all operations |
| `BrokerTable.DropNeverUnderflows` | crates/agentplug-host/src/broker.rs:183-195 | a live lease names a registered provider with a positive in-flight count |
| `BrokerTable.ShiftOutcome` | crates/agentplug-host/src/broker.rs:249-287 | what the others lose in a shift: bounds for every m, and exactly when it is nothing |
| `BrokerTable.ShiftKeepsRange` | crates/agentplug-host/src/broker.rs:249-292 | a shift keeps weights in 0..100 and draining at weight 0 |
| `BrokerTable.RollingUpdate` | crates/agentplug-host/src/broker.rs:136-143 | from 100 and 0 every shift keeps the two weights at 100 together, and call k reports completion if and only if k·step ≥ 100 |
| `BrokerTable.RollingUpdateCompletes` | crates/agentplug-host/src/broker.rs:249-295 | so a step of 1 to 100 completes on call ⌈100/step⌉ and stays complete |
| `RepeatedShift.StallLastsForever` | crates/agentplug-host/src/broker.rs:263-295 | once stalled, no later shift of that step takes anything from the others or reports completion, while the target climbs by the same amount up to 100 |
| `RepeatedShift.DrainsExactly` | crates/agentplug-host/src/broker.rs:263-295 | for any number of others, repeated shifts drain them if and only if no stalled vector of weights is ever met |
| `RepeatedShift.CompletesExactly` | crates/agentplug-host/src/broker.rs:263-295 | they complete if and only if, besides, the target comes to 100 |
| `RepeatedShift.CompletesUnlessStalled` | crates/agentplug-host/src/broker.rs:263-295 | with weights of at least 100 in all, never being stalled is enough and needed |
| `RepeatedShift.StepsOfOneComplete` | crates/agentplug-host/src/broker.rs:263-295 | for steps of 1 the condition on the weights at the start: at most one of the others before the last has weight |
| `BrokerTable.Brokers.RegisterWithWeight` | crates/agentplug-host/src/broker.rs:114-134 | registers in place as the step says; an id already there is left alone |
| `BrokerTable.Brokers.Unregister` | crates/agentplug-host/src/broker.rs:145-169 | removes an idle provider and an empty service; true exactly when the provider is gone afterwards |
| `BrokerTable.Brokers.SetServicePolicy` | crates/agentplug-host/src/broker.rs:171-176 | changes only the policy of an existing service |
| `BrokerTable.Brokers.Choose` | crates/agentplug-host/src/broker.rs:57-101 | the selection with its loops computes the specified choice; under the least-loaded policy the first routable provider with the fewest dispatches in flight |
| `BrokerTable.Brokers.Earn` | crates/agentplug-host/src/broker.rs:78-88 | the earning loop raises every routable current by its weight and finds the first largest |
| `BrokerTable.Brokers.EarnAndPay` | crates/agentplug-host/src/broker.rs:67-92 | the winner alone pays the total weight |
| `BrokerTable.Brokers.TakeLease` | crates/agentplug-host/src/broker.rs:198-211 | a lease is handed out exactly when some provider is routable, on the first least loaded one under that policy, and the counters rise for its provider only |
| `BrokerTable.Brokers.DropRouteLease` | crates/agentplug-host/src/broker.rs:183-195 | a dropped lease lowers its provider's counter and nothing else |
| `BrokerTable.Brokers.Shift` | crates/agentplug-host/src/broker.rs:249-295 | a shift in place; true exactly when the target carries all the traffic afterwards |
| `BrokerTable.Brokers.LowerOthers` | crates/agentplug-host/src/broker.rs:269-287 | the loop over `remaining_reduction` takes exactly the specified shares |
| `BrokerTable.ReapsExactly` | crates/agentplug-host/src/broker.rs:297-311 | reaping keeps, in order, exactly the providers that are not draining, or have weight or a dispatch in flight, and names the others |
| `BrokerTable.Brokers.Reap` | crates/agentplug-host/src/broker.rs:297-311 | removes and names, in order, exactly the draining providers without weight and dispatches |
| `TicketQueue.SkipCovers` | crates/agentplug-host/src/registry.rs:400-405 | skipping passes abandoned numbers only and stops at one that is not abandoned |
| `TicketQueue.LowestWaiterIsServed` | crates/agentplug-host/src/registry.rs:400-414 | after skipping, the number served is the lowest waiting ticket, so no pattern of give-ups strands a waiter |
| `TicketQueue.StepKeepsGood` | crates/agentplug-host/src/registry.rs:389-415 | every take, poll and give-up keeps the partition of tickets, the range of abandoned ones and the service order |
| `TicketQueue.ReachableIsGood` | crates/agentplug-host/src/registry.rs:1102-1139 | those hold in every run |
| `TicketQueue.ExactlyOneState` | crates/agentplug-host/src/registry.rs:1102-1139 | in every run an issued ticket is exactly one of waiting, served and given up |
| `TicketQueue.ClassTicketQueue.SkipAbandoned` | crates/agentplug-host/src/registry.rs:400-405 | the loop with its swap-removal computes the skip |
| `TicketQueue.ClassTicketQueue.TakeTicket` | crates/agentplug-host/src/registry.rs:1109-1115 | issues the next number |
| `TicketQueue.ClassTicketQueue.PollTicket` | crates/agentplug-host/src/registry.rs:1117-1130 | a poll succeeds exactly when a slot is free and the caller's ticket is the lowest waiting |
| `TicketQueue.ClassTicketQueue.AbandonTicket` | crates/agentplug-host/src/registry.rs:1132-1138 | gives up in turn or out of turn |
| `Admission.BandsLeaveOneSlot` | crates/agentplug-host/src/registry.rs:812-841 | general and git-band limits together leave a slot free if and only if the pool has 8 or more slots |
| `Admission.ReleaseNeverSaturates` | crates/agentplug-host/src/registry.rs:458-473 | whenever a holder is released its counter is positive |
| `Admission.StepKeepsGood` | crates/agentplug-host/src/registry.rs:444-473 | every admission and release keeps: each counter equals its holders, ids distinct, each holder held or released once, every band within its limit |
| `Admission.ReachableIsGood` | crates/agentplug-host/src/registry.rs:558-624 | that invariant under every interleaving of admissions and the three release paths |
| `Admission.OneSlotLeft` | crates/agentplug-host/src/registry.rs:953-1037 | with 8 or more slots general and git band hold at most slots−1 in every reachable state |
| `Admission.SmallPoolFills` | crates/agentplug-host/src/registry.rs:816-841 | for every smaller pool a run fills it to the last slot |
| `Admission.ReleasedStaysReleased` | crates/agentplug-host/src/registry.rs:458-473 | once released, a holder's later releases by any path change nothing |
| `Admission.BandsStayWithin` | crates/agentplug-host/src/registry.rs:812-841 | in every run each band stays within its share of the slots, and at most three heavy dispatches are counted |
| `Admission.AdmitsExactly` | crates/agentplug-host/src/registry.rs:971-1034 | which band admits a dispatch, in the counters: the general one with room, the git band only for a cheap dispatch on the git lane when the general one is full, else it waits |
| `Admission.AdmitsBlockingExactly` | crates/agentplug-host/src/registry.rs:888-916 | a blocking dispatch is admitted if and only if the blocking ones then leave a quarter of the slots, at least one, to short verbs |
| `Admission.ReclaimsExactly` | crates/agentplug-host/src/registry.rs:843-872 | the over-age rule releases the general holder held longest, if and only if it was held long enough and there are fewer holders than slots |
| `Admission.AdmissionTable.RegisterHolder` | crates/agentplug-host/src/registry.rs:445-456 | a fresh holder id |
| `Admission.AdmissionTable.ReleaseHolder` | crates/agentplug-host/src/registry.rs:458-473 | releases the holder and lowers its counters; false if another path was first |
| `Admission.AdmissionTable.TryAdmit` | crates/agentplug-host/src/registry.rs:971-1034 | one round of admission: unmetered, general band, git band or wait |
| `Admission.AdmissionTable.TryAdmitBlocking` | crates/agentplug-host/src/registry.rs:893-916 | one round of blocking admission |
| `Admission.AdmissionTable.ReleaseOverAgeHold` | crates/agentplug-host/src/registry.rs:843-872 | releases the first oldest general holder if old enough and a slot is free |
| `Admission.AdmissionTable.HeldByThread` | crates/agentplug-host/src/registry.rs:566-573 | the ids a dead thread holds, read in one section |
| `Admission.AdmissionTable.ReleaseEach` | crates/agentplug-host/src/registry.rs:577-584 | their release in a second section, counting those not yet released by others |
| `StoreSwap.StepKeepsGood` | crates/agentplug-host/src/registry.rs:1252-1310 | every step of the request, the slot holders and others keeps the debt at or above what the slots need |
| `StoreSwap.OwedCoversSlots` | crates/agentplug-host/src/registry.rs:1252-1275 | once `request_store_swap` has returned, the owed count is at least the number of slots holding the old bytes, a slot about to be emptied by a failed dispatch left out |
| `StoreSwap.CoversEveryWithoutFailures` | crates/agentplug-host/src/registry.rs:1252-1310 | as long as no dispatch on the old bytes has failed since the return, the owed count covers every slot holding them |
| `StoreSwap.PaymentNeedsSpare` | crates/agentplug-host/src/registry.rs:2391-2411 | a payment, by a failed or a completed dispatch, leaves every such slot covered if and only if the owed count was above their number |
| `StoreSwap.OtherStepsKeepCover` | crates/agentplug-host/src/registry.rs:1252-1310 | every other step keeps them covered |
| `StoreSwap.CoversEveryExactly` | crates/agentplug-host/src/registry.rs:1252-1310 | over any run after the return they are covered in every state if and only if no debt is ever paid with none to spare |
| `StoreSwap.ShortfallIsFailedDispatches` | crates/agentplug-host/src/registry.rs:2391-2411 | otherwise the owed count falls short by at most the number of failed dispatches about to empty their slot |
| `StoreSwap.FailedDispatchWindow` | crates/agentplug-host/src/registry.rs:2391-2411 | a run after which a slot holds the old bytes with nothing owed |
| `StoreSwap.CompletionEmpties` | crates/agentplug-host/src/registry.rs:1277-1293 | a first dispatch that completes on the old bytes finds a debt and goes on to empty its slot; a retried one does not look |
| `StoreSwap.AtMostTwoMore` | crates/agentplug-host/src/registry.rs:2391-2443 | in every run at most two more dispatches per slot complete on the old bytes after the return, at most one unless the slot's holder was retrying on re-installed old bytes then |
| `StoreSwap.AtMostOneMore` | crates/agentplug-host/src/registry.rs:2391-2443 | at most one in every run if and only if it was not so retrying |
| `StoreSwap.RetryUnderWayAtReturn` | crates/agentplug-host/src/registry.rs:2411-2443 | a run that returns with such a retry under way, so that two complete |
| `StoreSwap.RequestsExactly` | crates/agentplug-host/src/registry.rs:1252-1275 | a request nobody interrupts empties exactly the free slots with the old bytes, and its two counts are the numbers of those and of the busy slots |
| `StoreSwap.SharedPluginPool.RequestStoreSwap` | crates/agentplug-host/src/registry.rs:1252-1275 | does so in place and adds the number of busy slots to the debt |
| `StoreSwap.SharedPluginPool.NotePendingEvictionConsumed` | crates/agentplug-host/src/registry.rs:1295-1310 | pays one debt and forgets a hash without debt |
| `StoreSwap.SharedPluginPool.EvictIfSwapPending` | crates/agentplug-host/src/registry.rs:1277-1293 | empties the slot exactly when its bytes have a debt, and pays it |
| `Lane.StepKeepsGood` | crates/agentplug-host/src/registry.rs:3046-3180 | every claim, entry, time-out, settlement, drop, re-queue and forced release keeps: tokens distinct in the queue, no token backing two callers, the owner backed by the caller that entered |
| `Lane.ReachableIsGood` | crates/agentplug-host/src/registry.rs:3011-3180 | that invariant in every run |
| `Lane.LostStaysLost` | crates/agentplug-host/src/registry.rs:3225-3330 | a token that lost the lane never owns it again |
| `Lane.DropSparesOthers` | crates/agentplug-host/src/registry.rs:3225-3238 | dropping a guard never frees another caller's lane |
| `Lane.LostTokenFreesNobody` | crates/agentplug-host/src/registry.rs:3225-3326 | a guard that lost its lane never frees its successor, nor does a late forced release of its token |
| `Lane.OrderKept` | crates/agentplug-host/src/registry.rs:3060-3143 | two waiters that stay in the queue keep their relative order through every run |
| `Lane.NoOvertaking` | crates/agentplug-host/src/registry.rs:2766-2792 | of two waiters of one class the later is not admissible past a fresh earlier one |
| `Lane.GrantedInOrder` | crates/agentplug-host/src/registry.rs:2766-2792 | in every run, if the later of two waiters of one class is let in while the earlier still waits, the earlier has not been seen for 30 s |
| `Lane.AdmissibleExactly` | crates/agentplug-host/src/registry.rs:2766-2792 | a waiter is admissible if and only if every waiter ahead seen within 30 s is of a lower class and was claimed less than the yield time ago |
| `Lane.PassesOnlyLowerClasses` | crates/agentplug-host/src/registry.rs:2766-2792 | in every run whoever is let in while a waiter seen within 30 s still stands before it is of a higher class, and that waiter was claimed less than the yield time ago |
| `Lane.ClaimsExactly` | crates/agentplug-host/src/registry.rs:3063-3093 | a claim forgets exactly who was not seen for 10 minutes, then takes over the first unclaimed entry of its identity at its place or joins at the end |
| `Lane.LeavesOnlyBy` | crates/agentplug-host/src/registry.rs:3067-3128 | an entry leaves the queue only because its caller entered or was not seen for the ticket's lifetime |
| `Lane.HeadMayEnter` | crates/agentplug-host/src/registry.rs:2766-2792 | the head of the queue is always admissible |
| `Lane.LaneTable.ClaimPlace` | crates/agentplug-host/src/registry.rs:3063-3093 | claims so in place, with the token of the entry taken over or a new one |
| `Lane.LaneTable.IsAdmissible` | crates/agentplug-host/src/registry.rs:2766-2792 | the scan of those ahead finds everybody seen within 30 s to be yielding, or says no |
| `Lane.LaneTable.Enter` | crates/agentplug-host/src/registry.rs:3094-3118 | enters exactly when the lane is free and everybody ahead seen within 30 s yields |
| `Lane.LaneTable.SettleClaim` | crates/agentplug-host/src/registry.rs:3119-3143 | takes the entry off the queue after entering, leaves it unclaimed after a time-out |
| `Lane.LaneTable.Drop` | crates/agentplug-host/src/registry.rs:3225-3238 | frees the lane only if the guard's token still owns it |
| `Lane.LaneTable.ReleaseToken` | crates/agentplug-host/src/registry.rs:3262-3276 | a forced release frees the lane only if the observed token still owns it |
| `Lane.LaneTable.Requeue` | crates/agentplug-host/src/registry.rs:3196-3223 | puts an identity that is not queued at the front, unclaimed |
| `TokenCache.StepKeepsGood` | crates/agentplug-host/src/github_auth.rs:60-132 | every look, end of a lookup, end of a refresh and invalidation keeps the single flight and the provenance of the cached token |
| `TokenCache.ReachableIsGood` | crates/agentplug-host/src/github_auth.rs:73-132 | that invariant in every interleaving of callers and invalidators |
| `TokenCache.ServedIsFresh` | crates/agentplug-host/src/github_auth.rs:73-121 | a token served from the cache was found by a lookup for the same key, within its lifetime, that began after every earlier invalidation |
| `TokenCache.OneLookup` | crates/agentplug-host/src/github_auth.rs:91-110 | at most one caller is looking up or ending its refresh |
| `TokenCache.WaitsOnlyForAnother` | crates/agentplug-host/src/github_auth.rs:112-120 | a caller waits only while another caller's refresh is still to end |
| `TokenCache.Judge` | crates/agentplug-host/src/github_auth.rs:80-120 | a caller is served exactly a fresh entry of its key (60 s for a token, 10 s for none), and without one is refused from its deadline on, else refreshes alone or waits |
| `TokenCache.SharedCache.Check` | crates/agentplug-host/src/github_auth.rs:77-115 | one turn of the retry loop: serve, refuse, refresh or wait |
| `TokenCache.SharedCache.StoreResult` | crates/agentplug-host/src/github_auth.rs:98-110 | a result from before an invalidation is dropped and not answered |
| `TokenCache.SharedCache.EndRefresh` | crates/agentplug-host/src/github_auth.rs:60-74 | the guard ends the refresh, after a result or an unwound lookup |
| `TokenCache.SharedCache.Invalidate` | crates/agentplug-host/src/github_auth.rs:124-132 | forgets the token and moves the generation on |
| `GitCache.KeysDiffer` | crates/agentplug-host/src/imports.rs:186 | no two directories and questions share a flat key |
| `GitCache.OverlapIsAncestry` | crates/agentplug-host/src/imports.rs:69-71 | two directory keys overlap if and only if one's components are a prefix of the other's |
| `GitCache.ForgetDropsKin` | crates/agentplug-host/src/imports.rs:221-230 | forgetting a directory drops exactly the layout answers of it, its ancestors and its descendants |
| `GitCache.RememberStaysWithinLimit` | crates/agentplug-host/src/imports.rs:208-219 | the cache never exceeds 512 entries |
| `GitCache.RepresentedSize` | crates/agentplug-host/src/imports.rs:208-219 | the flat-key map has as many entries as the map by directory and question it stands for |
| `GitCalls.StepKeepsGood` | crates/agentplug-host/src/imports.rs:1058-1094 | every step keeps: index entries carry the identity read before their git run, at most 512 entries, each answer what git said in that run |
| `GitCalls.ReachableIsGood` | crates/agentplug-host/src/imports.rs:1160-1194 | that invariant in every interleaving of calls, other git commands and changes of the indexes |
| `GitSchedules.RecalledWithinTheCall` | crates/agentplug-host/src/imports.rs:1061-1084 | a recalled index answer is what git said at some instant of the call, where no identity returns over another answer |
| `GitSchedules.AnsweredWithinExactly` | crates/agentplug-host/src/imports.rs:1061-1084 | for every sequence of index changes: all schedules of calls around it are answered within the calls if and only if no identity returns over another answer of git |
| `GitSchedules.AnsweredWithinForEveryGit` | crates/agentplug-host/src/imports.rs:144-152 | whatever git answers, if and only if no identity returns |
| `GitCalls.RecalledIsForTheIdentityRead` | crates/agentplug-host/src/imports.rs:1061-1084 | in every run a recalled answer is git's for the identity read at the start of the call if and only if git answers alike for the identities the filing call read and ran git under |
| `GitSchedules.AnsweredForReadExactly` | crates/agentplug-host/src/imports.rs:1061-1084 | for every sequence of index changes: all schedules get the answers for the identities read if and only if no change of an index that is there changes git's answer |
| `GitCalls.StillIndexIsAnswered` | crates/agentplug-host/src/imports.rs:1061-1084 | a call during which the index stands still gets the answer for it, where no identity returns over another answer |
| `GitSchedules.EarlyIsNotForRead` | crates/agentplug-host/src/imports.rs:1160-1194 | for every change of git's answer, a schedule in which a recalled answer differs from git's for the identity read |
| `GitSchedules.LateIsNotWithin` | crates/agentplug-host/src/imports.rs:144-152 | for every identity that returns over another answer, a schedule that recalls an answer of no instant of its call |
| `GitCache.GitLayoutCache.Recall` | crates/agentplug-host/src/imports.rs:185-206 | answers on a matching identity and drops an entry whose identity is stale or unknown |
| `GitCache.GitLayoutCache.Remember` | crates/agentplug-host/src/imports.rs:208-219 | clears a full cache for a new key, then files |
| `GitCache.GitLayoutCache.ForgetDir` | crates/agentplug-host/src/imports.rs:221-230 | keeps index entries and layout entries of unrelated directories |
| `TaskResults.IssuedIdsAreValid` | crates/agentplug-host/src/task_results.rs:46-53 | ids of the form the host issues are valid result names |
| `TaskResults.LastRecordStays` | crates/agentplug-host/src/task_results.rs:257-284 | of the records written, the last one of an id is there afterwards |
| `TaskResults.IdsAreSafe` | crates/agentplug-host/src/task_results.rs:46-53 | valid ids are `task-` and up to 123 hexadecimal digits and hyphens |
| `TaskResults.RecordsAreSound` | crates/agentplug-host/src/task_results.rs:166-181 | the validity of a record, in numbers |
| `TaskHandoff.OwnRecordIsSound` | crates/agentplug-host/src/task.rs:238-263 | a host never refuses the record of a task it issued and finished itself |
| `TaskResults.AnswersExactly` | crates/agentplug-host/src/task_results.rs:288-320 | a result is shown if and only if it is a private sound record younger than 30 minutes, and missing if and only if it is not there or over age and removed |
| `TaskResults.StoredReplyShows` | crates/agentplug-host/src/task_results.rs:301-320 | the bytes shown are the end of any output whose end was recorded, as many as asked for, and the omitted count is what comes before them |
| `TaskResults.Store.Scan` | crates/agentplug-host/src/task_results.rs:216-255 | the scan drops expired results only, keeps everything else and those whose removal fails, and on success its totals are those of the directory, within bounds |
| `TaskResults.Store.Plan` | crates/agentplug-host/src/task_results.rs:256-281 | refuses if and only if some record is invalid, unreadable, different or too long, or the store would outgrow 512 records or 64 MiB |
| `TaskResults.Store.WriteAll` | crates/agentplug-host/src/task_results.rs:282-284 | on failure a prefix of the writes is done |
| `TaskResults.Store.Save` | crates/agentplug-host/src/task_results.rs:209-286 | success means every record can be read back and the store is within its bounds; success or not, nothing unexpired is lost or changed |
| `TaskResults.Store.Output` | crates/agentplug-host/src/task_results.rs:288-320 | shows the end of the recorded output, exactly if the result is readable and not over age; removes it exactly if over age, and reports a removal that fails |
| `TaskResults.KeptUntilExpiry` | crates/agentplug-host/src/task_results.rs:149-164 | through every run of saves and answers a result stays unchanged until its retention time is over |
| `TaskHandoff.OrphanReapAt` | crates/agentplug-host/src/task.rs:93-100 | the idle limit is never before the deadline |
| `TaskHandoff.TasksAreNeverOrphaned` | crates/agentplug-host/src/task.rs:93-112 | in every life of a task the `orphaned` label stays unset, whatever the idle clock does |
| `TaskHandoff.LabelledExactlyWhenOverrun` | crates/agentplug-host/src/task.rs:369-419 | a task is labelled timed out if and only if some poll found it running at or after its deadline |
| `TaskHandoff.NeverKilledEarly` | crates/agentplug-host/src/task.rs:392-416 | no poll ends a running task before its deadline |
| `TaskHandoff.SettledStays` | crates/agentplug-host/src/task.rs:369-376 | a finished and drained task never changes again |
| `TaskHandoff.SoFarIsWritten` | crates/agentplug-host/src/task.rs:369-419 | whatever polls and drains happen, nothing a task wrote is lost or reordered |
| `TaskHandoff.ReplyShowsWritten` | crates/agentplug-host/src/task.rs:608-661 | at any moment a task's reply shows the last bytes of everything it wrote, as many as asked for, and says how many come before them |
| `TaskHandoff.StoredShowsWritten` | crates/agentplug-host/src/task_results.rs:288-320 | after the handoff, through every later run of saves and answers until retention expires, the store shows the last bytes of everything the task wrote, up to 65536 |
| `TaskHandoff.HandoffKeepsReply` | crates/agentplug-host/src/task.rs:608-661 | stored and live reply agree in tails, omitted counts, exit code and timeout label if and only if at most 64 KiB are asked for or the whole output was kept |
| `TaskHandoff.AnswersSurviveHandoff` | crates/agentplug-host/src/task_results.rs:288-320 | and they agree through every later run of saves and answers until retention expires |
| `TaskHandoff.Records` | crates/agentplug-host/src/task.rs:238-263 | one record per task, in the map's arbitrary order |
| `TaskHandoff.TaskRegistry.Register` | crates/agentplug-host/src/task.rs:331-352 | a new id gets its entry, a taken one is refused |
| `TaskHandoff.TaskRegistry.PollAll` | crates/agentplug-host/src/task.rs:228-230 | polls every task once |
| `TaskHandoff.TaskRegistry.PrepareHandoff` | crates/agentplug-host/src/task.rs:221-268 | a granted handoff has every remaining task finished, drained and stored, and the store answers for each as the registry does; no unexpired task is left out |
| `TaskHandoff.TaskRegistry.Output` | crates/agentplug-host/src/task.rs:608-661 | a registered task answers after a touch and a poll with the last bytes of its output, any other id with those the store recorded |
| `ModuleSplitter.PiecesMakeUpScript` | crates/agentplug-host/src/exec_js.rs:715-797 | kept and hoisted pieces make up the script in order, so hoisted ranges are disjoint and increasing |
| `ModuleSplitter.SplitIsPartition` | crates/agentplug-host/src/exec_js.rs:715-797 | the remainder is the script with exactly the hoisted pieces deleted, the head those pieces trimmed, one per line |
| `ModuleSplitter.OnlyDeclarationsHoisted` | crates/agentplug-host/src/exec_js.rs:763-788 | every hoisted piece starts with `import` or `export` as a whole word, `import(` excluded |
| `ModuleSplitter.NothingHoisted` | crates/agentplug-host/src/exec_js.rs:791-797 | with nothing hoisted the script is unchanged and the head empty |
| `ModuleSplitter.SplitTwice` | crates/agentplug-host/src/exec_js.rs:715-797 | splitting the remainder again hoists nothing and changes nothing |
| `ScriptTokens.SkipIsOneToken` | crates/agentplug-host/src/exec_js.rs:724-756 | what the scan passes over in one step is exactly one comment or literal, by a character-by-character reading, or one character that starts neither |
| `ScriptTokens.StartAfterToken` | crates/agentplug-host/src/exec_js.rs:715-790 | the scan's flag is true exactly where, looking back over blanks and block comments, one meets the beginning, a newline, `;`, `)` or a line comment |
| `ModuleSplitter.EndIsFirst` | crates/agentplug-host/src/exec_js.rs:799-848 | a declaration ends with the first `;` or newline outside comments and literals at bracket depth 0 or less since its keyword, or at the end of the script |
| `ModuleSplitter.PiecesHoistExactly` | crates/agentplug-host/src/exec_js.rs:715-797 | in every script a piece is hoisted if and only if a statement may start there and `import` or `export` stands there as a whole word; it ends at that first terminator |
| `ModuleSplitter.TrimIsMiddle` | crates/agentplug-host/src/exec_js.rs:777 | trimming takes off exactly the white space at both ends |
| `ModuleSplitter.EndShifts` | crates/agentplug-host/src/exec_js.rs:799-848 | the end of a declaration does not depend on the text before it |
| `ModuleSplitter.SkipQuoted` | crates/agentplug-host/src/exec_js.rs:739-754 | the index loop over a literal stops at its end, also when it is not closed |
| `ModuleSplitter.SkipBlock` | crates/agentplug-host/src/exec_js.rs:732-738 | the index loop over a comment stops at its end, also when it is not closed |
| `ModuleSplitter.DeclarationEnd` | crates/agentplug-host/src/exec_js.rs:799-848 | the index loop finds that first terminator, within bounds |
| `ModuleSplitter.HoistAt` | crates/agentplug-host/src/exec_js.rs:763-788 | trying both keywords in turn hoists what starts there |
| `ModuleSplitter.SplitTopLevelModuleDeclarations` | crates/agentplug-host/src/exec_js.rs:715-797 | the index loop cuts every script exactly at those declarations: head and remainder are the hoisted pieces, trimmed, and the rest |
| `ProcessTree.ChildrenOf` | crates/agentplug-host/src/process_tree.rs:40-43 | inverts the parent map |
| `ProcessTree.DescendantsRootFirst` | crates/agentplug-host/src/process_tree.rs:39-57 | for every parent map the result is exactly the processes reachable from the root, each once, the root first and every other after its parent |
| `ProcessTree.VisitKeepsSearching` | crates/agentplug-host/src/process_tree.rs:47-55 | one visit keeps the search's invariant |
| `ProcessTree.ClosedHoldsReachable` | crates/agentplug-host/src/process_tree.rs:39-57 | a set closed under children that holds the root holds everything reachable |
| `Recorder.RecordedKeepsGood` | crates/agentplug-host/src/action_recorder.rs:198-240 | recording keeps: ids consecutive, the byte total the sum of the events' and within 500 MiB, no two adjacent equal network events, repeats on network events only |
| `Recorder.RecordedExtendsStream` | crates/agentplug-host/src/action_recorder.rs:208-239 | an accepted event is the next of the expanded stream, merged or not; a refused one changes nothing in it |
| `Recorder.StepKeepsGood` | crates/agentplug-host/src/action_recorder.rs:101-240 | every operation keeps that and at most 10 unstopped recordings |
| `Recorder.ReachableIsGood` | crates/agentplug-host/src/action_recorder.rs:101-240 | both hold in every run |
| `Recorder.RecordingReproducesStream` | crates/agentplug-host/src/action_recorder.rs:198-240 | in every run, expanding a recording by its repeats gives exactly the events accepted since it was started |
| `Recorder.SessionsArePlain` | crates/agentplug-host/src/action_recorder.rs:87-98 | session names are 1 to 64 ASCII letters, digits, `_` and `-` |
| `Recorder.StartsExactly` | crates/agentplug-host/src/action_recorder.rs:109-143 | a recording starts if and only if its name is plain and not live and fewer than ten are live, where live means not stopped and at most 20 minutes old |
| `Recorder.AcceptsExactly` | crates/agentplug-host/src/action_recorder.rs:166-241 | an event is accepted if and only if its recording is live and it repeats the last network event or fits within 500 MiB |
| `Recorder.ListsExactly` | crates/agentplug-host/src/action_recorder.rs:244-271 | an event is listed if and only if it is of the kind, a problem if asked, and its URL does not contain the excluded text |
| `Recorder.ActionRecorder.Start` | crates/agentplug-host/src/action_recorder.rs:109-143 | expires, then refuses an active session or an eleventh recording, else starts afresh |
| `Recorder.ActionRecorder.Stop` | crates/agentplug-host/src/action_recorder.rs:146-161 | stops an existing recording |
| `Recorder.ActionRecorder.RecordEvent` | crates/agentplug-host/src/action_recorder.rs:166-241 | drops telemetry, refuses a missing or ended recording, else merges or appends |
| `Recorder.Append` | crates/agentplug-host/src/action_recorder.rs:198-240 | the expiry, merge, size-limit and append cases on one recording |
| `Recorder.FilteredInOrder` | crates/agentplug-host/src/action_recorder.rs:244-271 | every listed event passes the kind, error and exclude filters, and the list keeps the recording's order |
| `Recorder.FilteredHasAll` | crates/agentplug-host/src/action_recorder.rs:244-271 | every event that passes is listed |
| `Recorder.ActionRecorder.Events` | crates/agentplug-host/src/action_recorder.rs:244-271 | expires, then lists what passes the filters |
| `Recorder.ActionRecorder.Frame` | crates/agentplug-host/src/action_recorder.rs:274-286 | the one event with the id, or the error that says what is missing |
| `RegistryWalk.WalksGoRound` | crates/agentplug-runner/src/daemon.rs:2887-2925 | over any series of walks with arbitrary cut-offs the j-th visit is at `cursor + j` modulo the number of roots |
| `RegistryWalk.EveryRootIsReached` | crates/agentplug-runner/src/daemon.rs:2887-2925 | any n walks over n roots reach every root |
| `RegistryWalk.WholeWalkVisitsOnce` | crates/agentplug-runner/src/daemon.rs:2906-2921 | as many visits in turn as there are roots are one of each root |
| `RegistryWalk.Walk.Over` | crates/agentplug-runner/src/daemon.rs:2896-2925 | the walk visits the roots in turn from the cursor; true means every root was visited exactly once, false that it stopped at the first visit after which the budget was used up |
| `WorkerGate.DecrementNeverUnderflows` | crates/agentplug-host/src/exec_pool.rs:42-48 | a live lease means `running` is positive |
| `WorkerGate.StepKeepsGood` | crates/agentplug-host/src/exec_pool.rs:25-48 | every step keeps `running` equal to the live leases and within the pool's size, and tickets consecutive |
| `WorkerGate.FirstComeFirstServed` | crates/agentplug-host/src/exec_pool.rs:25-40 | in every run the k-th caller let in is the k-th that came, those waiting follow in order, and at most a pool's worth run |
| `WorkerGate.HeadIsEnabled` | crates/agentplug-host/src/exec_pool.rs:30 | with room and someone waiting, the head and nobody else may go |
| `WorkerGate.HeadAfterThoseBefore` | crates/agentplug-host/src/exec_pool.rs:30-37 | a waiting ticket is at the head after as many grants as there were tickets before it |
| `WorkerGate.Gate.Enter` | crates/agentplug-host/src/exec_pool.rs:25-29 | issues the next ticket at the end of the queue |
| `WorkerGate.Gate.TryGo` | crates/agentplug-host/src/exec_pool.rs:30-38 | a woken caller goes on exactly at the head of the queue with room |
| `WorkerGate.Gate.Release` | crates/agentplug-host/src/exec_pool.rs:42-48 | gives the place back; never below zero |

## Left out

- Wasm engines, linkers, stores and modules: a loaded instance is only the hash of its bytes.
- File system, processes, git, HTTP and JSON text: their results are parameters, a written record reads back as itself and a record's text length is an arbitrary function of it.
- Real time, wake-ups and lock poisoning: waiting is any number of polls, and each held-lock section reads the clock once.
- Machine-integer overflow of tickets, tokens, generations and counters: they are naturals or integers.
- Identities that are only compared (provider ids, sessions, lookup keys, content hashes, lane identities) are opaque names or numbers.
- The timed path of `ToolDispatchGuard`: mutual exclusion and first-come order are not properties of that code.
- Browser control, browser leases, daemon ownership files, verb tables, configuration defaults, status payloads and claim dispatch.
- Which verbs are heavy, short, blocking or on the git lane: the cost class and the two flags are inputs of an admission.
- Lanes are modelled one at a time, for one project; the liveness test of a forced release is left open, so any owner may be forced out.
- The repair of the result directory's permissions.
- Stopping a task and removing its stored result by request.
- Normalisation of git directories (separators, case, trailing slash) and the folding of `-C` and `-c` arguments: directories are given by their cache keys.
- The answer to `rev-parse HEAD` read from disk: it does not use the cache.
- Sanitising of recorded URLs and bodies, and rendering of listed events as JSON: an event is given as the recording compares it, with the length of its text.
- BrokerTable.Brokers.Choose: the test for a zero total weight is absent, because routable providers have positive weight.
- ModuleSplitter.SplitTopLevelModuleDeclarations: scans characters instead of UTF-8 bytes; all characters it looks for are ASCII, so both stop at the same places.
- TokenCache.StepKeepsGood: says nothing of the token a finishing lookup returns to its own caller beyond it being the one stored.
- Lane.GrantedInOrder: a waiter that is not seen for 30 s may be passed, and a network verb that has waited for the yield time may hold others back; no bound on the waiting time is stated.
- GitSchedules.AnsweredWithinExactly: concerns index questions; layout answers are kept until a git command runs in an overlapping directory and no exactness is claimed for them.
