# Verification of hopr-strategy: channel lifecycle and PIX deposit pools

A Dafny 4.11 model of the decision engine that opens, funds, closes and finalizes payment channels, of
the watcher that discovers Curvy deposits, and of the plain pool's retried deposit. Verify everything
with `dafny verify dfyconfig.toml`.

| file | what it models |
|---|---|
| `Common.dfy` | optional values, filtering and stable sorting |
| `Consolidation.dfy` | which of the channels that cannot afford a ticket give up their stake to the others |
| `Leases.dfy` | exclusive slots that expire, with fencing ids: the class, all interleavings, invisible sweeps |
| `Slots.dfy` | the four kinds of slots together: shared budget, ceilings, exclusion |
| `Sizing.dfy` | stakes from data capacity and ticket economics, in wei and exact reals |
| `Selector.dfy`, `CloseSelection.dfy` | the multi-objective choice of peers to open to and channels to close |
| `Passes.dfy` | the passes of a tick as folds over their worklists |
| `Walks.dfy` | what each pass does with its list, place by place |
| `Ticks.dfy` | what a tick reads, what it reports, and what follows for the tick as a whole |
| `TickEffects.dfy` | what each pass of a tick does, said of the channels, the reads, the slots and the configuration alone |
| `Strategy.dfy` | the running strategy: dispatching, the passes, the tick, chain events, the event loop |
| `CurvyMachine.dfy` | every interleaving of deposit waiters and the watcher task |
| `CurvyPass.dfy` | catching up with the index page by page, and the durable ledger |
| `CurvyDelivery.dfy` | committed amounts, what a finished replay announces again and what it commits |
| `CurvySystem.dfy` | waiters, worker and ledger as one system, and that final deposits are delivered |
| `PlainDeposit.dfy` | the retried plain deposit |

## How the model is built

* Time is a natural number that only grows. Between any two dispatches of a pass, and between events,
  an arbitrary amount of it passes and any of the spawned transactions report back, in any order.
  Taking a slot and charging it against the shared budget is one step: ticks and event handlers share
  one task, so nothing else takes slots meanwhile, and releases in between could only make room.
  A pass that filters its worklist by held slots reads them all at one instant.
* Every external answer is an input: the channel list, the Safe's balance and allowance, ticket
  economics, connectivity, ticket activity, the drain heuristic, the selector's lists, what re-reading
  a channel returns. Absent inputs stand for reads that failed or timed out. The selectors are modelled
  on their own; the pipeline is proved for any lists they could return, duplicates included.
* A pass is a fold over its worklist with one answer per candidate (was the slot granted, was it busy);
  its loop is proved to compute that fold, to dispatch exactly the attempts of the fold, and to answer them
  as the slots they met do. `Walks` says of every fold what each place of the list leads to, and
  `TickEffects` says it of the tick, without the functions that the passes are computed with.
* One node's channels have distinct identifiers and distinct destinations, as the channel id is a hash
  of the two ends; a tick assumes it of the list it reads.
* Amounts are unbounded naturals with the 256-bit saturation written out where the source saturates.
  Probabilities, ranks, scores and ticket ratios are exact reals; the snap tolerance is a parameter.
* For Curvy, a note's place in the event order is a number and its owner is the allocation whose secret
  opens it. Who is watched, what fails and what the index serves is an arbitrary function of the
  interaction, so faults may occur and the index may grow at every read and write; it holds a bounded number
  of events, without which a pass over it need not end.
* The interleavings of waiters and worker are over any durable ledger to start from. There a replay may end
  once every allocation recorded before it has been announced again; `CurvySystem.FinishedReplayMayEnd`
  proves that of the whole system.
* For the plain pool, a round says what the world does around one attempt; nothing drains the
  destination meanwhile. What was sent and has not landed by the last attempt may land afterwards.

## Main results

* `Consolidation.ClosesAreOptimal`, `Consolidation.DecisionNeverWidens`: what is kept is the most that pays
  for itself, and over any run of partial progress nothing is added to what is closed.
* `Leases.HoldersNeverOverlap`, `Leases.SweepIsInvisible`: one live holder per slot in every interleaving,
  and sweeping can never be observed.
* `TickEffects.FundsTheNeedy`, `TickEffects.FundsWithinTheSafe`, `TickEffects.ClosesTheListed`,
  `TickEffects.ConsolidatesTheDeferred`, `TickEffects.RaisesTheRest`, `TickEffects.FinalizesTheOverdue`,
  `TickEffects.OpensTowardsTheBest`, `TickEffects.NextTickClosesOnlyTheRest`: what a tick does, in terms of
  the channels, reads, slots and configuration alone, and that the next tick carries a decision on.
* `Strategy.Strategy.Tick`, `Strategy.Strategy.Drive`, `Slots.AnsweredBySlots`, `Ticks.TickNeverOverspends`,
  `Ticks.PopulationFloorKept`, `Strategy.DebouncedOverRuns`: over whole runs, with time and reporting tasks
  between any two dispatches, ticks and handlers dispatch exactly what their records say, within the caps,
  the budget, the population floor and the debounce window.
* `Passes.TopUpIsMaximal`, `Passes.FrontIsCheapest`: the greedy walk raises as many survivors as any choice.
* `Selector.SelectOpens`, `CloseSelection.SelectCloses`: the k-floor of every bucket, both ways.
* `CurvyMachine.NoLostWakeup`, `CurvyMachine.ForgottenExactly`: exactly which waiters are left behind, in
  every interleaving of `watch`, cancellation and the worker; `CurvyMachine.CallsCanFinish` and
  `CurvyMachine.PassesCanEnd`: no interleaving deadlocks.
* `CurvyPass.Watcher.CatchUp`, `CurvyPass.FinishedReplayCommitsEveryDeposit`,
  `CurvySystem.FinalDepositsAreDelivered`: paged traversal of a growing index with faults anywhere equals
  the flat one, and a finished replay delivers every final deposit.
* `PlainDeposit.LandingsExactly`, `PlainDeposit.PaidAtMostOnceExactlyWhen`,
  `PlainDeposit.FundFreeExactlyWhenNothingWasSent`: how often a retried deposit pays, and what a fund-free
  error means.

## What the proofs found

* Closing is not monotone in the Safe. The comment at src/channel_lifecycle/pipeline.rs:648-656 says that
  the tick-start balance can only lower the number of closures; when the smaller pool sustains no channel
  at all, a larger one closes more. `Consolidation.LargerSafeClosesNoMoreExactlyWhen` gives the exact
  condition.
* Funding outside the fund and consolidation passes ignores closures in flight: a balance event, or an
  opening redirected into a top-up, can fund a channel that is being closed. It does exactly when the
  top-up is granted while the close slot is live (`Strategy.Strategy.OnBalanceDecreased`,
  `Strategy.Strategy.TryOpenChannel`, `Strategy.BalanceEventFundsAClosing`), and over whole runs no channel
  holds both slots unless that has happened (`Strategy.Strategy.Drive`).
* A completion is recorded and its cursor advanced before the amount is read back. If that read fails in
  an incremental pass, the waiter stays parked although its deposit is committed, until another completion
  of the same allocation or another registration's replay (`CurvyMachine.FailedReadLosesTheWakeup`). In a
  replay pass the request is restored and the replay repeated, so at rest only failures outside replays
  leave anybody behind (`CurvyMachine.ForgottenExactly`).
* The second phase of a pass moves the pending cursor too. For a paged source that serves candidates with
  its completions, the next pass can skip pending notes nobody has judged; `CurvyPass.NextPassResumes`
  gives the exact condition. Neither source in the repository is of that kind: Blokli serves no such
  candidates, and a snapshot ignores the cursor.
* src/pix/pools/plain.rs:980-984 says that a submitted transfer whose confirmation was lost is not sent
  twice. That holds of one that has landed by the next balance read (`PlainDeposit.SentAgainOnlyUnlanded`).
  One that is still in flight then is sent again, and can land as well, even after the deposit was reported
  as made (`PlainDeposit.LandingAfterSuccessPaysTwice`). The deposit is paid at most once if and only if
  nothing lands late or afterwards, or one transfer does and none promptly
  (`PlainDeposit.PaidAtMostOnceExactlyWhen`).
* Tickets are counted with the low 128 bits of the price. A price that is a multiple of 2^128 is charged
  one ticket whatever the capacity, so even with certain wins the stake is short for more than one packet
  (`Sizing.CertainWinChargesNoExtra`).

## Model

| member | source | states |
|---|---|---|
| Consolidation.ClosesAreOptimal | src/channel_lifecycle/consolidation.rs:55-86 | A non-empty answer keeps exactly floor(pool / face) channels, the kept ones can be raised to face value from the Safe, the stake in flight and the closed balances, and no set of channels that pays for itself is larger |
| Consolidation.SustainableIffFewEnough | src/channel_lifecycle/consolidation.rs:65-78 | Keeping a set of channels and closing the rest pays for itself exactly when the set has at most floor(pool / face) members |
| Consolidation.ClosesTheWorstRanked | src/channel_lifecycle/consolidation.rs:81-85 | No closed channel outranks a kept one, and closures are listed worst first |
| Consolidation.ClosesNothingExactlyWhen | src/channel_lifecycle/consolidation.rs:61-77 | The answer is empty exactly when the face value is zero, no channel at all can be sustained, or every one can be raised as it is |
| Consolidation.DispatchLeavesTheRest | src/channel_lifecycle/consolidation.rs:55-86 | Starting any part of the returned closures leaves exactly the remaining ids, in order, for the next decision; starting all leaves none |
| Consolidation.TopUpLeavesTheRest | src/channel_lifecycle/consolidation.rs:55-86 | Raising a survivor to face value from the Safe leaves the decision as it was, unless it was the last sustainable one: then nothing more is closed |
| Consolidation.ReclaimChangesNothing | src/channel_lifecycle/consolidation.rs:65-70 | Stake in flight reaching the Safe does not change the decision |
| Consolidation.DecisionNeverWidens | src/channel_lifecycle/consolidation.rs:55-86 | Over every run of dispatched closures, reclaimed stake and top-ups, what is decided next is the original answer without what has been dispatched, or nothing |
| Consolidation.LargerSafeClosesNoMoreExactlyWhen | src/channel_lifecycle/pipeline.rs:648-656 | A larger Safe closes no more channels exactly when the smaller pool already sustains one channel or the larger one closes nothing |
| Consolidation.LargerSafeMayCloseMore | src/channel_lifecycle/pipeline.rs:648-656 | Concrete pools for which a larger Safe balance closes more channels, against the comment in the source |
| Leases.ActionLeases.Acquire | src/channel_lifecycle/mod.rs:225-247 | Grants a fresh id exactly when the slot is free or its deadline has passed; from then on it reads as held exactly until now + timeout; a refusal leaves every entry, and so the earlier deadline, as it was |
| Leases.AcquiredHoldsUntilTheDeadline | src/channel_lifecycle/mod.rs:225-247 | Said of the deadlines alone: after a grant the key is held at every time before now + timeout and at none from then on, under the new id; after a refusal exactly as before; no other key is touched |
| Leases.CallsAreARun | src/channel_lifecycle/mod.rs:225-283 | Any calls made on the class one after another leave the table that some run of the interleaved world leaves, so fencing holds of the class |
| Leases.ActionLeases.ReleaseOwned | src/channel_lifecycle/mod.rs:249-255 | Removes the entry exactly if that holder still holds it, and nothing else |
| Leases.ActionLeases.Release | src/channel_lifecycle/mod.rs:262-264 | Removes the entry whoever holds it, and nothing else |
| Leases.ActionLeases.IsHeld | src/channel_lifecycle/mod.rs:268-270 | A slot reads as held exactly while it is present and its deadline is ahead |
| Leases.ActionLeases.HeldCount | src/channel_lifecycle/mod.rs:273-276 | Counts the live slots |
| Leases.ActionLeases.Sweep | src/channel_lifecycle/mod.rs:280-283 | Keeps exactly the entries whose deadline is ahead, unchanged |
| Leases.FencedRun | src/channel_lifecycle/mod.rs:225-283 | That agreement survives every interleaving |
| Leases.HoldersNeverOverlap | src/channel_lifecycle/mod.rs:225-264 | In every run two live holders of one key are the same holder, and the table shows a holder live exactly when that holder believes it |
| Leases.SlotStaysWithItsHolder | src/channel_lifecycle/mod.rs:249-264 | In every run a granted slot stays with its holder until its deadline, its own report or a chain event on its key; stale reports, other acquires and sweeps never end it |
| Leases.AnswersInTurn | src/channel_lifecycle/mod.rs:225-283 | What a caller observes is the answer to every call but the sweeps, in order, as table and clock stand when it is made |
| Leases.SweepIsInvisible | src/channel_lifecycle/mod.rs:278-283 | Inserting or removing sweeps anywhere leaves every later acquire, is_held and held_count answer the same |
| Slots.SpawnGrants | src/channel_lifecycle/pipeline.rs:357-394 | A dispatch is granted exactly when its slot is free and fewer than max_concurrent_actions are in flight; then one more slot of that kind is held, and no other table changes |
| Slots.SpawnKeepsCaps | src/channel_lifecycle/pipeline.rs:357-394 | A dispatch keeps the global budget and the closing and finalizing ceilings, provided its own ceiling had room |
| Slots.SpawnExclusiveIff | src/channel_lifecycle/pipeline.rs:357-394 | A funding or closing dispatch breaks exclusion if and only if the other slot of the channel is held, its own is free and fewer than max_concurrent_actions are in flight |
| Slots.EverySlotIsCharged | src/channel_lifecycle/pipeline.rs:209-214 | The actions in flight are as many as there are slots held, over all four kinds |
| Slots.AnsweredBySlots | src/channel_lifecycle/pipeline.rs:357-394 | Whatever a stretch of the strategy has asked for, every single request was answered by the slots it met: granted exactly if its own was free there and fewer than max_concurrent_actions were in flight |
| Sizing.FaceValueBound | src/channel_lifecycle/config.rs:559-572 | For every price the truncated face value is at most the real-valued one and less than one wei per hop below it, or saturated |
| Sizing.EstimateIsFullExactly | src/channel_lifecycle/config.rs:574-663 | The face value that tickets are counted with is the real-valued one exactly for prices that fit 128 bits |
| Sizing.StakeBound | src/channel_lifecycle/config.rs:574-663 | For every price and capacity the stake is a whole number of exact face values, at least one, or pinned at the largest amount; it is less than one real-valued face value above the real-valued tickets needed and, unless something saturates, with T tickets of h hops less than T*h wei (plus the snap tolerance) below them; below 2^128 these are worth the target the stake is sized for |
| Sizing.TicketsPayThePrice | src/channel_lifecycle/config.rs:559-572 | Said of price, chance and hops alone: unless it saturates, a winning ticket is worth, to within a wei per hop, what makes tickets that win with that chance pay the price over all hops on average; chances are brought between the spacing of doubles at one and one |
| Sizing.PacketsCoverTheBytes | src/channel_lifecycle/config.rs:587 | The packets are the fewest that carry the bytes |
| Sizing.SnapsToTheNearest | src/channel_lifecycle/config.rs:514-533 | The ticket count is the nearest whole number if that is within the tolerance, and the next whole number otherwise |
| Sizing.StakePaysForTheTraffic | src/channel_lifecycle/config.rs:574-663 | The stake for a capacity pays for the packets that carry it, each at the price per hop, with the margin of the sizing mode on top, or for one ticket if that costs more: less than a ticket above, less than a wei per ticket and hop below, up to the snap tolerance |
| Sizing.AmountsPayForTheirCapacity | src/channel_lifecycle/config.rs:694-710 | The opening stake, the top-up and the threshold each pay for the capacity configured for them, and are zero without one |
| Sizing.CertainWinChargesNoExtra | src/channel_lifecycle/config.rs:574-663 | When every ticket wins, a deterministic stake is price * hops * packets, as far as representable, if and only if the low 128 bits of the price are not all zero, there is one packet only, or one packet saturates |
| Sizing.ResolvedAmountsAreWhole | src/channel_lifecycle/config.rs:694-710 | The opening stake, the top-up and the threshold are whole numbers of face values, or saturated |
| Sizing.FundAmount | src/channel_lifecycle/pipeline.rs:1021-1026 | The amount funded never exceeds the Safe nor a full top-up |
| Sizing.FundAmountIsLargestWhole | src/channel_lifecycle/pipeline.rs:1016-1026 | A partial amount is a whole number of tickets and the largest the Safe covers; it is zero exactly when the Safe covers less than one |
| Selector.SharesCellIff | src/channel_lifecycle/selector/bucket.rs:28-44 | Two peers share a cell exactly when they have the same subnet and none of 50, 75, 125 and 200 milliseconds lies between their latencies |
| Selector.CountsTheCell | src/channel_lifecycle/selector/multi_objective.rs:155-163 | What the floor of a cell is compared with: the open channels the view has in it and the picks of known subnets that landed in it |
| Selector.FindInCell | src/channel_lifecycle/selector/multi_objective.rs:163-170 | Finds the best-ranked unpicked candidate of a cell, or none if there is none |
| Selector.FillSweep | src/channel_lifecycle/selector/multi_objective.rs:137-183 | The k-floor sweep appends only picks of cells still below the floor, keeps the running counts equal to a recount of the picks, and leaves every known cell at the floor, picked from in this sweep, or without candidates |
| Selector.UtilityRank | src/channel_lifecycle/selector/multi_objective.rs:185-213 | The utility stage appends the best-scored remaining candidates in order and keeps the running counts equal to a recount |
| Selector.FillOpens | src/channel_lifecycle/selector/multi_objective.rs:116-213 | Both stages over one tier: sweep picks are the best of known cells below the floor, one per cell; a utility pick happens only when every known cell has reached the floor or was served; picks are distinct members of the tier, as many as the limit allows, and the counts equal a recount |
| Selector.SelectOpens | src/channel_lifecycle/selector/multi_objective.rs:315-338 | With distinct addresses the result has exactly min(open_per_tick, deficit, candidates) distinct members, in the order listed with their keys; while demotion is on, a peer with fewer outgoing channels than the minimum, or none, comes after every other candidate has been picked; either tier was filled by a floor sweep and then by score, counting the picks before it |
| CloseSelection.SimulatedCounts | src/channel_lifecycle/selector/multi_objective.rs:275-282 | The simulated counts start as the number of candidates in each cell |
| CloseSelection.OpenablePeersAreNotRetiredForQuality | src/channel_lifecycle/selector/default.rs:43-111 | A peer good enough to be opened to is never closed for its quality alone |
| CloseSelection.ClosedForCause | src/channel_lifecycle/selector/default.rs:43-111 | The shared rules said of the channel alone: drained to the floor, or observed with too low a quality, or unseen for too long past the observation guard; the bound is the override or else the configured one |
| CloseSelection.EligibleExactly | src/channel_lifecycle/selector/multi_objective.rs:230-265 | Which channels the multi-objective selector may close, said of the channel, the rules and the view alone: drained ones, and otherwise those with cause, with the bound lowered by the gap but not below zero, that share their cell with another open channel or whose subnet is unknown |
| CloseSelection.AtFloorIff | src/channel_lifecycle/selector/multi_objective.rs:284-311 | When closing a channel would take its cell to or below the floor, said of the candidates, the picks and the view alone: it is not drained, its subnet is known, and no more candidates of its cell than the floor are left besides the picks that are not drained |
| CloseSelection.SelectCloses | src/channel_lifecycle/selector/multi_objective.rs:230-313 | The list names the picks in their order; they are distinct, in ascending score order, at most close_per_tick many, all eligible, keep every known cell at its floor counting non-drained closures, and leave out an eligible channel only because of the floor or the limit |
| CloseSelection.ReturnedChannelLeavesTheFloor | src/channel_lifecycle/selector/multi_objective.rs:284-311 | Whenever a non-drained channel of a known cell is returned, the cell keeps at least k_floor of its occupants |
| CloseSelection.OccupantsAreTheViewsCount | src/channel_lifecycle/selector/bucket.rs:58-64 | Counting candidates per cell agrees with the bucket view |
| Passes.FundPassConserves | src/channel_lifecycle/pipeline.rs:1007-1059 | What the fund pass committed and what is left add up to what it started with, and every attempt asks for the most whole tickets its predecessors left affordable |
| Passes.ReclaimRespectsTheCap | src/channel_lifecycle/pipeline.rs:665-681 | Consolidation closures are asked for in the order of the decision, as long as fewer than close_max_concurrent are in flight |
| Passes.TopUpConserves | src/channel_lifecycle/pipeline.rs:696-711 | Consolidation top-ups raise their channel to exactly face value and never overspend |
| Passes.FrontIsCheapest | src/channel_lifecycle/pipeline.rs:683-694 | Exchange: any choice of survivors costs at least as much as equally many with the highest balances |
| Passes.TopUpIsMaximal | src/channel_lifecycle/pipeline.rs:683-711 | The walk in descending balance with its early break raises at least as many survivors as any other choice the same budget pays for, among those whose dispatch was not refused; if every attempt was accepted that is every survivor, whether or not the walk stopped |
| Passes.ClosePassIsGuarded | src/channel_lifecycle/pipeline.rs:1330-1371 | The regular close pass stays within the concurrency cap, the per-tick cap and the population floor, and while connected peers are shielded asks only for channels of disconnected ones |
| Passes.StreakIsRunLength | src/channel_lifecycle/pipeline.rs:1293-1317 | The streak is the length of the run of latest evaluated ticks that saw the destination with an open channel and disconnected |
| Passes.FinalizePassIsGuarded | src/channel_lifecycle/pipeline.rs:1412-1446 | Only channels whose notice period ended long enough ago are finalized, within the cap |
| Passes.OpenPassConserves | src/channel_lifecycle/pipeline.rs:1491-1506 | What the open pass committed, its redirects into top-ups included, and what is left add up to what it started with; it makes at most one attempt per listed peer |
| Walks.FundPassServesTheList | src/channel_lifecycle/pipeline.rs:1010-1059 | Place by place of the worklist until the walk stops: below one face value while the Safe is stranded, the channel is deferred; any other gets one attempt, for the whole top-up or else the most whole tickets affordable; the walk stops exactly where neither is affordable; it falls short exactly if it stops or asks for less than a top-up |
| Walks.ClosePassServesTheList | src/channel_lifecycle/pipeline.rs:1330-1371 | Place by place of the list: every known channel with no slot taken gets one closing attempt, while connected peers are shielded only if its peer is disconnected; the walk stops exactly when the concurrency cap, the per-tick cap or the population floor is reached |
| Walks.ReclaimPassServesTheList | src/channel_lifecycle/pipeline.rs:665-681 | Consolidation closures are asked for in order and left off exactly where the closing cap is reached |
| Walks.TopUpPassServesTheList | src/channel_lifecycle/pipeline.rs:696-711 | Place by place of the survivors: each below face value gets exactly what it lacks; the walk stops exactly where that is not affordable |
| Walks.FinalizePassServesTheList | src/channel_lifecycle/pipeline.rs:1412-1446 | Place by place of the channels: one finalization for each whose notice period has been over for the configured time and whose slot is free; the walk stops exactly at the cap |
| Walks.OpenPassServesTheList | src/channel_lifecycle/pipeline.rs:1491-1506 | Place by place of the list: a peer found with no channel or a closed one is opened towards for the opening stake, an open channel below the threshold is topped up if affordable, any other peer gets nothing; attempts come in list order; the walk stops exactly where what the peers before have left is below the opening stake |
| Walks.OpenPassIsShort | src/channel_lifecycle/pipeline.rs:510-549 | The open pass falls short exactly if it stops or meets a channel that it would top up and cannot |
| Ticks.TickNeverOverspends | src/channel_lifecycle/pipeline.rs:902-906 | Everything a tick committed and what is left of its budget add up to the smaller of balance and allowance at its start, zero if the Safe is unknown or unregistered |
| Ticks.StartupGuard | src/channel_lifecycle/pipeline.rs:1253-1371 | While observing nothing is closed; consolidation closes only once the guard has expired |
| Ticks.PopulationFloorKept | src/channel_lifecycle/pipeline.rs:1330-1352 | If the close pass closed anything, the counted population is still at or above min_open_channels, closures in flight are within their cap, and the per-tick cap holds |
| Ticks.ShieldedClosesAreDebounced | src/channel_lifecycle/pipeline.rs:1293-1317 | While connected peers are shielded, every closure asked for is of a channel whose peer was disconnected in each of the last close_after_disconnected_ticks evaluated ticks |
| Ticks.ReclaimsBelowFace | src/channel_lifecycle/pipeline.rs:610-681 | Consolidation closes only open channels below face value that hold neither slot |
| Ticks.TopUpsReachFace | src/channel_lifecycle/pipeline.rs:683-711 | Consolidation raises only such channels, to exactly face value, and never one it is closing |
| Ticks.ConsolidationIsOptimalHere | src/channel_lifecycle/pipeline.rs:657-661 | Inside a tick the decision is applied to distinct candidates below face value, so its answer keeps as many as any affordable choice |
| Ticks.TopUpsAreMaximalHere | src/channel_lifecycle/pipeline.rs:683-711 | Inside a tick no affordable choice of survivors is larger than what was raised, among those not refused; if every attempt was accepted, among all survivors, however early the walk stopped |
| Ticks.FundedAmountsAreWhole | src/channel_lifecycle/pipeline.rs:1021-1026 | With amounts resolved from the economics the tick read, every amount the fund pass asks for is positive and a whole number of tickets, or saturated |
| Ticks.FinalizesOnlyOverdue | src/channel_lifecycle/pipeline.rs:1424-1443 | A tick finalizes only its own overdue channels |
| Ticks.VerdictsAddUp | src/channel_lifecycle/pipeline.rs:102-111 | Taking the worse verdict of each pass in turn, a tick is Failed exactly when a read some pass needs was missing and Running exactly when nothing fell short |
| TickEffects.FundsTheNeedy | src/channel_lifecycle/pipeline.rs:920-988 | The worklist of the fund pass: exactly the open channels with neither a funding nor a closing transaction in flight, at or below the threshold or draining fast, and above the drain floor or, with a floor of zero, with a peer not known to be disconnected or with ticket activity; each once, lowest balance first |
| TickEffects.WorksWithWhatItRead | src/channel_lifecycle/pipeline.rs:855-866 | A tick has amounts to work with only if it could read the economics; each then pays for the traffic of the capacity configured for it at the price and the chance read |
| TickEffects.FundsWithinTheSafe | src/channel_lifecycle/pipeline.rs:990-1068 | What the fund pass of a tick does with it: stranded exactly if the balance does not cover a top-up for each and an opening stake for every channel missing from the floor; which channels are funded, for how much, which deferred and which not reached |
| TickEffects.CountsThePopulation | src/channel_lifecycle/pipeline.rs:882 | The counted population is the number of open channels and of openings in flight |
| TickEffects.ClosesTheListed | src/channel_lifecycle/pipeline.rs:1250-1371 | When the close pass of a tick runs, which channels it goes through in which order, its caps and its floor, and that between the observation and the grace time it closes only channels whose peers have been disconnected for the whole debounce window |
| TickEffects.ConsolidatesTheDeferred | src/channel_lifecycle/pipeline.rs:1391-1409 | When consolidation runs, which channels it chooses among, and that the pool is the Safe balance, their stake and the balances of exactly the channels that are pending to close or hold a live closing slot; it decides on closures only past the startup guard |
| TickEffects.AsksForItsClosures | src/channel_lifecycle/pipeline.rs:665-681 | The closures decided on are asked for in order, up to where the closing cap is reached |
| TickEffects.RaisesTheRest | src/channel_lifecycle/pipeline.rs:683-711 | Which survivors the top-ups go through, highest balance first, with what the fund pass left of the Safe, what each gets, and where they stop |
| TickEffects.FinalizesTheOverdue | src/channel_lifecycle/pipeline.rs:1412-1446 | When the finalize pass runs, and which channels it asks for up to its cap |
| TickEffects.OpensTowardsTheBest | src/channel_lifecycle/pipeline.rs:1451-1509 | When the open pass runs, how many of the ranked peers it goes through, and what each leads to, given how its channel was re-read and what all before it left of the Safe |
| TickEffects.NextTickClosesOnlyTheRest | src/channel_lifecycle/pipeline.rs:1377-1397 | From one tick to a later one over the same channels and Safe balance, where some of the closures decided on have been started and hold their slot or are pending to close: their stake goes on counting, and the later tick decides on exactly the others, in order |
| Strategy.Strategy.constructor | src/channel_lifecycle/strategy.rs:106-125 | A new strategy holds no slot |
| Strategy.Strategy.TotalInFlight | src/channel_lifecycle/pipeline.rs:209-214 | Counts the live slots of all four kinds |
| Strategy.Strategy.ReportBack | src/channel_lifecycle/pipeline.rs:383-389 | A finished task gives back its slot only if it still holds it |
| Strategy.Strategy.Interleave | src/channel_lifecycle/pipeline.rs:383-394 | Time and reporting tasks only ever free slots |
| Strategy.Strategy.SpawnLeased | src/channel_lifecycle/pipeline.rs:357-394 | Takes the slot, charges the shared budget, and gives the slot back if that is spent; the whole new state is stated and the caps hold |
| Strategy.Strategy.Dispatch | src/channel_lifecycle/pipeline.rs:357-394 | One dispatch of a pass after the environment has had its turn: what slots it met, what it made of them, caps kept, exclusion kept unless the channel clashes |
| Strategy.Strategy.FundPass | src/channel_lifecycle/pipeline.rs:920-1068 | The worklist is every needy, refundable channel with neither slot held, neediest first; the outcome is the fold over it; no channel ends up with both slots |
| Strategy.Strategy.FundLoop | src/channel_lifecycle/pipeline.rs:1010-1059 | The loop with its early stop computes exactly the fund fold, dispatches exactly its attempts and keeps caps and exclusion |
| Strategy.Strategy.ObserveConnectivity | src/channel_lifecycle/pipeline.rs:1293-1317 | Pruning, advancing and resetting streaks channel by channel yields the next streaks, and the channels whose streak reached the debounce |
| Strategy.Strategy.Unranked | src/channel_lifecycle/pipeline.rs:1319-1320 | The disconnected channels the selector did not rank, each once, in no particular order |
| Strategy.Strategy.ConsiderClosing | src/channel_lifecycle/pipeline.rs:1351-1370 | A listed channel is passed over exactly when it is unknown, busy for cause, or shielded; otherwise one closing dispatch is made |
| Strategy.Strategy.CloseLoop | src/channel_lifecycle/pipeline.rs:1330-1371 | The guarded loop computes exactly the close fold; a channel is passed over as busy only for cause |
| Strategy.Strategy.ClosePass | src/channel_lifecycle/pipeline.rs:1253-1371 | The close pass as a whole: its guards are this tick's, its list is the ranked channels and then the other disconnected ones |
| Strategy.Strategy.ReclaimLoop | src/channel_lifecycle/pipeline.rs:667-681 | Dispatches the decision worst first under the shared closure cap |
| Strategy.Strategy.TopUpLoop | src/channel_lifecycle/pipeline.rs:683-711 | Computes exactly the top-up fold over the survivors |
| Strategy.Strategy.Consolidate | src/channel_lifecycle/pipeline.rs:597-712 | Closes only when the startup guard has expired, sized against the Safe balance and the stake in flight, then tops up the survivors that hold no slot |
| Strategy.Strategy.FinalizePass | src/channel_lifecycle/pipeline.rs:1412-1446 | Computes exactly the finalize fold over all channels |
| Strategy.Strategy.TryOpenChannel | src/channel_lifecycle/pipeline.rs:510-575 | Opens, redirects into a top-up, or does nothing, exactly as the re-read channel demands; starting from exclusion, it fails afterwards if and only if a redirected top-up clashed: it was granted while the closure of that channel was in flight |
| Strategy.Strategy.OpenPass | src/channel_lifecycle/pipeline.rs:1448-1509 | Walks the first deficit ranked peers while an opening stake is affordable |
| Strategy.Strategy.SweepAll | src/channel_lifecycle/pipeline.rs:217-222 | Sweeping leaves in all four tables exactly the entries whose deadline is ahead |
| Strategy.Strategy.FundStage | src/channel_lifecycle/pipeline.rs:920-1068 | The fund pass takes place exactly when the economics and the Safe are known; otherwise its verdict is Failed |
| Strategy.Strategy.CloseStage | src/channel_lifecycle/pipeline.rs:1250-1378 | The close pass takes place exactly when the startup guard is past observing, at the phase of that moment |
| Strategy.Strategy.ConsolidationStage | src/channel_lifecycle/pipeline.rs:1391-1409 | Consolidation takes place exactly when something was deferred and there is a face value |
| Strategy.Strategy.FinalizeStage | src/channel_lifecycle/pipeline.rs:1412-1449 | The finalize pass takes place exactly when it is enabled |
| Strategy.Strategy.OpenStage | src/channel_lifecycle/pipeline.rs:1451-1509 | The open pass takes place exactly when there is a deficit, the peers, economics and Safe are known, and the opening stake is not zero |
| Strategy.Strategy.RunPasses | src/channel_lifecycle/pipeline.rs:882-1509 | The five passes in order, sharing one budget, add up to the report |
| Strategy.Strategy.Tick | src/channel_lifecycle/pipeline.rs:733-1509 | One pipeline run does exactly what its report says, in order, keeps the caps throughout, keeps exclusion unless a redirected opening clashed, and publishes the worst verdict; without the channel list it does nothing |
| Strategy.Strategy.OnBalanceDecreased | src/channel_lifecycle/events.rs:34-89 | Tops up exactly when the channel is open, not being funded, below the last resolved threshold, and the Safe can spend a full top-up; starting from exclusion, it fails afterwards if and only if that top-up clashed |
| Strategy.CallsForTopUpIff | src/channel_lifecycle/events.rs:57-84 | Which balance decreases call for a top-up, said of the channel, the Safe read and the resolved amounts alone |
| Strategy.FundingIsTheLatest | src/channel_lifecycle/pipeline.rs:860-866 | The amounts event handlers go by are those of the latest tick that could resolve any |
| Strategy.BalanceEventFundsAClosing | src/channel_lifecycle/events.rs:34-89 | From any slots with room for two, once a closure is dispatched on a free channel, a balance decrease that calls for a top-up asks for one, and granting it leaves the channel holding both slots |
| Strategy.ClashBreaksExclusion | src/channel_lifecycle/pipeline.rs:357-394 | Every recorded clash, a top-up granted on slots that showed the closure of its channel in flight, does leave that channel holding both slots |
| Strategy.Strategy.Forget | src/channel_lifecycle/events.rs:91-107 | An event on a channel frees its slot of that kind whoever holds it |
| Strategy.Strategy.Serve | src/channel_lifecycle/strategy.rs:214-250 | A tick dispatches exactly the attempts of its report and adds it to the record, a balance decrease exactly its top-up, the other events nothing; a balance increase, an opening, an initiated closure and a completed one free exactly the funding, opening, closing and finalizing slot of their channel; exclusion is kept unless a top-up clashed |
| Strategy.Strategy.Drive | src/channel_lifecycle/strategy.rs:211-253 | Over every sequence of ticks and events, with any interleaving: the caps hold in every state reached; each event in turn was served as it should be, on slots left by what was dispatched before; the log is what the events dispatched, in order; the record is that of the ticks; no channel holds both slots unless a top-up clashed, and none does without funding outside the passes |
| Strategy.RecordIsComplete | src/channel_lifecycle/strategy.rs:211-253 | Every tick that could read the channels is on the record, in order, and nothing else is |
| Strategy.DebouncedOverRuns | src/channel_lifecycle/pipeline.rs:1253-1371 | Over whole runs, a closure asked for while connected peers are shielded is of a peer disconnected for the whole debounce window |
| Strategy.TickAddsASighting | src/channel_lifecycle/pipeline.rs:1293-1317 | Each tick whose close pass ran adds to the connectivity record what it has read: the destinations of its open channels and the peers it knows to be disconnected |
| Strategy.SightingIsATick | src/channel_lifecycle/pipeline.rs:1293-1317 | Nothing else adds to that record |
| Strategy.GuardOnlyRelaxes | src/channel_lifecycle/config.rs:877-885 | Over whole runs, once a tick was allowed to close no later tick is observing, and an expired guard stays expired |
| CurvyMachine.InvariantRun | src/pix/pools/curvy/lifecycle.rs:272-576 | These hold in every interleaving |
| CurvyMachine.NoLostWakeup | src/pix/pools/curvy/lifecycle.rs:281-316 | In every run, while the worker is not about to announce its allocation, a parked waiter is reached if and only if a read-back failed after its minimum was reached and nothing was announced for its allocation since |
| CurvyMachine.ForgottenExactly | src/pix/pools/curvy/lifecycle.rs:443-455 | In every run at rest with no replay requested, a parked waiter is reached if and only if such a read-back failed in a pass that was no replay |
| CurvyMachine.MarksAreHistory | src/pix/pools/curvy/lifecycle.rs:443-455 | The two marks the machine keeps per waiter say exactly which failed read-backs of the run have not been made up for |
| CurvyMachine.DeliveredByReplay | src/pix/pools/curvy/lifecycle.rs:544-569 | A waiter parked when a replay began, and reached when that replay may end, has been sent its amount by then or has given up |
| CurvyMachine.SentAtMostOnce | src/pix/pools/curvy/lifecycle.rs:356-374 | Every waiter is sent at most one amount, at least its minimum and no more than is committed |
| CurvyMachine.ReplayIsNeverLost | src/pix/pools/curvy/lifecycle.rs:310-354 | In every run a parked waiter has its replay requested, about to be requested, running since after it parked, or completed, where a replay completes only once everything recorded before it has been announced again |
| CurvyMachine.FailedReadLosesTheWakeup | src/pix/pools/curvy/lifecycle.rs:443-455 | Any waiter with a positive minimum can end up parked with it committed, the worker idle and no replay requested, by one failed read-back in an incremental pass |
| CurvyMachine.NothingElseWakes | src/pix/pools/curvy/lifecycle.rs:443-455 | From any point of a run where the worker has nothing to tell a waiter, only another completion of the same allocation, or giving up, ends its wait |
| CurvyMachine.RefusalLeavesNoTrace | src/pix/pools/curvy/lifecycle.rs:272-300 | A registration can be refused at either of its two reads under the lock and at no other place; it then leaves the lock free, nobody parked and nothing sent |
| CurvyMachine.CallsCanFinish | src/pix/pools/curvy/lifecycle.rs:272-374 | From every reachable state every watch call can still come to its end: no interleaving deadlocks on the waiter lock |
| CurvyMachine.PassesCanEnd | src/pix/pools/curvy/lifecycle.rs:461-576 | From every reachable state with the lock free a running pass can end without any failure, a replay after announcing everything that is due |
| CurvyPass.Store.RecordOwnedCandidate | src/pix/pools/curvy/state.rs:425-455 | Records a note once, maps it to its allocation and advances the cursor |
| CurvyPass.Store.RecordCompletion | src/pix/pools/curvy/state.rs:457-508 | Marks a known note committed, advances the cursor, and says whose note it was |
| CurvyPass.CommittedStays | src/pix/pools/curvy/state.rs:425-508 | No later step of any pass takes a commitment or its amount back |
| CurvyPass.LedgerHoldsWhatWasServed | src/pix/pools/curvy/state.rs:425-508 | Nothing is invented: what the ledger holds for an allocation after a pass it held before, or the pass judged a well-formed note of a watched allocation, with that amount; what has become committed was completed in the pass |
| CurvyPass.RecordingTwiceIsHarmless | src/pix/pools/curvy/state.rs:425-455 | Judging the same candidate twice changes nothing |
| CurvyPass.Watcher.ProcessCandidate | src/pix/pools/curvy/lifecycle.rs:376-418 | Judges a candidate against the allocations watched just then, pauses exactly when there are none, fails exactly on a fault; only a judged event moves the ledger |
| CurvyPass.Watcher.ProcessCompletion | src/pix/pools/curvy/lifecycle.rs:420-457 | Records a completion or quarantines a malformed one; it fails exactly on a fault, which after the record can only be the read-back of a known note's amount |
| CurvyPass.Watcher.ScanAll | src/pix/pools/curvy/lifecycle.rs:477-485 | Judges a prefix of the notes in order, all of them unless paused or failed |
| CurvyPass.Watcher.PendingPhase | src/pix/pools/curvy/lifecycle.rs:470-489 | For any page size, and an index that grows between its pages, the traversal judges exactly a prefix of the pending notes behind the cursor, in order and once, all that were served by its last read if it finishes; it terminates, and finishes unless something failed or nobody was watching |
| CurvyPass.Watcher.CompleteAll | src/pix/pools/curvy/lifecycle.rs:516-532 | Records completions up to the first that is not final |
| CurvyPass.Watcher.CommittedPage | src/pix/pools/curvy/lifecycle.rs:497-532 | A page's own candidates are judged before any of its completions is recorded, although they are read after it, from an index that may have advanced |
| CurvyPass.CandidatesOfThePage | src/pix/pools/curvy/lifecycle.rs:497-506 | However far the index has advanced between the two reads, the candidates read after a page are those of that page |
| CurvyPass.Watcher.CommittedPhase | src/pix/pools/curvy/lifecycle.rs:491-536 | For any page size, and an index that grows between its pages, the traversal records a run of final completions behind the cursor, all that were served by its last read if it finishes, each after its own candidate was judged |
| CurvyPass.Watcher.CatchUp | src/pix/pools/curvy/lifecycle.rs:461-538 | Any pass judges pending notes behind its cursor, in order, and records completions behind the other cursor, in order and once, only those at least the finality depth below the indexed head, or in block zero while the head is not that deep; in a replay both from the beginning; a finished pass all of them; every completion after its own candidate; a pass that met no fault and always somebody waiting finishes |
| CurvyPass.Watcher.RunOnce | src/pix/pools/curvy/lifecycle.rs:552-569 | A replay request is given back exactly when the pass that took it failed; a replay that finishes has committed every final deposit served to it, for every allocation watched at each of its interactions |
| CurvyPass.FinishedReplayCommitsEveryDeposit | src/pix/pools/curvy/lifecycle.rs:461-538 | A finished replay, with an allocation watched throughout, has committed every note of that allocation that was served as pending or with its completion and whose completion is final |
| CurvyPass.NextPassResumes | src/pix/pools/curvy/lifecycle.rs:461-538 | What the pass after this one finds on a paged index that has grown: it resumes right behind the last pending note judged if and only if the second phase judged no candidate or its last one stands just there in the event order |
| CurvyPass.ScanMaySkipAPendingNote | src/pix/pools/curvy/lifecycle.rs:494-515 | A paged source that serves them can move the cursor past a pending note nobody has judged |
| CurvyDelivery.AmountNeverFalls | src/pix/pools/curvy/state.rs:519-532 | The committed amount of an allocation never falls over any trace |
| CurvyDelivery.ReplayAnnouncesAgain | src/pix/pools/curvy/lifecycle.rs:443-455 | A finished replay announces every allocation with a committed note again, however many of its completions were recorded before |
| CurvyDelivery.PassStaysOnTheIndex | src/pix/pools/curvy/lifecycle.rs:461-538 | What that asks of the ledger holds from an empty one on: any pass, finished or not, over an index whose final completions have only grown keeps it |
| CurvySystem.SystemRunsTheMachine | src/pix/pools/curvy/lifecycle.rs:544-576 | Waiters and worker beside the ledger their steps write behave as the machine does, so its theorems hold of the whole |
| CurvySystem.JudgedAgainstTheParked | src/pix/pools/curvy/lifecycle.rs:376-418 | A candidate is judged against exactly the waiters parked and not cancelled just then; with none left the pass ends and nothing is judged |
| CurvySystem.AnnouncedAmountsAreCommitted | src/pix/pools/curvy/lifecycle.rs:443-455 | In every run the amount the worker announces for an allocation is what the ledger holds committed for it |
| CurvySystem.FinishedReplayMayEnd | src/pix/pools/curvy/lifecycle.rs:461-538 | A replay whose trace is that of all events served has announced everything recorded before it began, so it may end |
| CurvySystem.FinalDepositsAreDelivered | src/pix/pools/curvy/lifecycle.rs:272-374 | A waiter that a finished replay started with has been sent an amount, or has given up, if final deposits to its allocation reach its minimum |
| PlainDeposit.RefusedPayloadIsFundFree | src/pix/pools/plain.rs:167-191 | A payload is refused unless it is made out to the deposit id and reads "test" padded with zeros to 64 bytes; the refusal is classified fund-free |
| PlainDeposit.OnlyTwoErrorsAreFundFree | src/errors.rs:97-106 | An error is classified fund-free exactly if it is an invalid input, or a refusal for want of funds before any attempt had sent the transfer |
| PlainDeposit.OneAttempt | src/pix/pools/plain.rs:729-779 | One attempt said of the balances alone: when it sends the transfer, when it succeeds, when it fails for want of funds, and what it leaves at the destination |
| PlainDeposit.Deposit.DepositOnce | src/pix/pools/plain.rs:729-779 | One attempt: balance check, affordability gate, transfer; the shared flag says exactly whether a transfer was ever submitted |
| PlainDeposit.Deposit.DepositFundsTo | src/pix/pools/plain.rs:992-1014 | Refuses the payload before any attempt; otherwise attempts until success or the retries are used up |
| PlainDeposit.FundFreeExactlyWhenNothingWasSent | src/errors.rs:97-106 | A final error is fund-free exactly when the gate refused the last attempt and no attempt ever sent the transfer; then nothing was submitted and nothing landed |
| PlainDeposit.NothingSubmittedIff | src/pix/pools/plain.rs:729-779 | Nothing was submitted exactly when no attempt got as far as sending |
| PlainDeposit.DestinationHoldsWhatLanded | src/pix/pools/plain.rs:729-779 | Only submitted transfers land, the destination holds all that landed, and success means the deposit is there |
| PlainDeposit.LandingsExactly | src/pix/pools/plain.rs:729-779 | How often a deposit is paid is, for every run, the number of transfers that land late or after the attempts are over, plus one if some attempt lands promptly |
| PlainDeposit.PaidAtMostOnceExactlyWhen | src/pix/pools/plain.rs:980-984 | The deposit is paid at most once if and only if no transfer lands late or after the attempts are over, or one does and no attempt lands promptly |
| PlainDeposit.CanPayTwiceExactlyWhen | src/pix/pools/plain.rs:980-984 | By what lands afterwards a deposit can end up paid twice if and only if two of its attempts sent the transfer |
| PlainDeposit.SentAgainOnlyUnlanded | src/pix/pools/plain.rs:980-984 | An attempt that sends the transfer has found none of those before it landed |
| PlainDeposit.PromptLandingsPayOnce | src/pix/pools/plain.rs:980-984 | If nothing lands late, at most one transfer lands while the deposit is attempted, and it is paid at most once if and only if none lands afterwards, or one does and none before |
| PlainDeposit.LateLandingPaysTwice | src/pix/pools/plain.rs:980-984 | A concrete run in which a transfer lands after the next balance read and the deposit is paid twice |
| PlainDeposit.LandingAfterSuccessPaysTwice | src/pix/pools/plain.rs:980-984 | A concrete run in which nothing lands late and the deposit is reported as made, but a transfer of an earlier attempt lands afterwards and pays it twice |

## Left out

- Whole-pipeline convergence of consolidation: the fund pass runs first and may spend the Safe on channels at or above face value, so only the decision itself is shown to narrow.
- Floating-point rounding, the inverse normal quantile of the probabilistic margin (a given real), and price.div_f64 of another crate (taken as truncating division).
- Overflow of 256-bit sums where the source would panic or wrap, of the 64-bit lease ids, and of u64 note positions.
- Reopen cooldown, last observations, ticket activity counters and the proactive drain estimate: they reach the passes only as inputs (whether a channel needs funds early, whether a peer was active).
- Building open candidates from allowlists, blocklists and connectivity, and the score formulas of both selectors; the default selector's own open ranking.
- A bound on non-drained closures per cell that also counts drained ones: the source does not charge drained closures to the simulated counts.
- The instant inside one dispatch between taking a slot and giving it back when the budget is spent: the caps hold at every boundary between dispatches, events and tasks.
- Registering a watch under a second identity: the refusal leaves the waiters untouched and stands with a failed read as one step.
- remove_spent_notes and wiping the store, which take committed value away on purpose; committed amounts are taken as never decreasing while somebody waits.
- Cursors tied to block hashes across reorganisations, and an index that takes back events.
- Detection itself: that a note opens for at most one allocation, and with one amount, is assumed where it matters (`OneOwner`, `OwnersAgree`, `OneAmount`).
- The plain pool's gas top-up and sweep, deposit trackers and batching; the backoff's delays.
- Auto-funding, auto-redeeming, the legacy finalizer, multi-strategy, configuration parsing, metrics and tracing.
- CurvyMachine.NoLostWakeup: an exact condition instead of an unconditional guarantee, because a failed read-back does lose the wakeup.
- Strategy.Strategy.Tick: exclusion of funding and closing is conditional on no redirected opening having clashed, because the source does not check it there.
- Sizing.StakeBound: no lower bound for a stake that saturates, and its target is met for prices below 2^128 only, because the source counts tickets with the low 128 bits of the price.
