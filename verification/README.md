# Loop strategies: a verified model

A loop is a vault that holds levered collateral and is kept honest by a quorum of operators. This
project models the five parts of the system whose correctness is not visible from any one function,
and proves what they promise.

* **The shared service document** (`ServiceDoc`, `Mutation`, `ConcurrentAdditions`, `Attempts`, `MutationScripts`,
  `MutationQueue`).
  Every loop lives as a workflow in one last-write-wins document. A mutation takes a checkpoint, fetches,
  edits, pins, sets, scans for overlapping writes, merges what it replaced and tries again. The manager is a
  block-stamped log of URI writes, IPFS an immutable store, and a script of events stands for other writers,
  failing ports and lost replies. `Mutation.Step` is one port call; the theorems range over every script.
* **The deployment pipeline** (`Registry`, `Pipeline`, `Deployer`, `DeployerRefinement`, `VaultOwnership`). Any number of
  loops are created, crash and resume over a registry of rows, deploy transactions and the mutation queue.
  `Deployer.LoopDeployer` is the class with the source's loops and early exits; `DeployerRefinement` shows that
  what one of its calls does is a run of the system the theorems of `Pipeline` are about.
* **Strike arithmetic** (`Words`, `Arith`, `TickRatio`, `TickTables`, `TickMath`, `DebtMath`, `PlanMath`, `Deleverage`,
  `Redemption`, `OpenPosition`, `ActionPlan`, `PlanEffects`, `EscrowFloor`, `ConfigBytes`). 256-bit words wrap, and the
  bounds under which nothing wraps are proved, not assumed. The plans are step lists with their sizes. Where the source's checked arithmetic
  would stop the cycle, the model returns a failure. The pool price follows the ticks of section 6.1 of the
  Uniswap v3 Core whitepaper.
* **Block search** (`BlockSearch`). A doubling walk-back and a bisection against a linear scan.
* **Replay and small cores** (`SortByKey`, `ReplayTimeline`, `ReplayGrowth`, `ReplayState`, `ReplayCache`, `Subgraph`,
  `FormatPct`). The journal compiler and its playback state, the single-use signature cache, the subgraph's
  counters, and percentage printing read back by an independent reader.

Ports become events or parameters: the chain's answers, clocks, random ids, transaction hashes and vault
addresses are all inputs, and signatures and hashes are opaque values. A run that finds no further input is a
process that died there.

## Where the code and its comments differ

* `components/vault-nav/src/lib.rs:488-492` calls the flash-loan cushion 20 bps. Dividing by 5000 makes it 2 bps.
  Growth up to that, less a unit of rounding, is covered (`FlashPrincipalCoversAccrual`); more than that, plus a unit, or
  two for a partial unwind, never is (`FullUnwindFallsShort`, `AccrualOutgrowsPrincipal`, `CushionIsNotTwentyBps`).
* `components/vault-nav/src/lib.rs:463-470` scales the deleverage cushion with leverage so that it pays for slippage on the
  whole collateral leg. For a partial unwind it does so below 40x, where (1.01 + 0.006 L)(1 - 0.005 L) = 1, and past that,
  at a pool price up to par, every unwind falls short: `UnwindCoversShortfall`, `UnwindFallsShort`. A full unwind has no
  cushion at any leverage: it covers the shortfall exactly when 99.5% of the collateral's proceeds pay it and the debt
  (`FullUnwindCovers`), and a 3x position asked for more than its equity does not (`FullUnwindExample`). At the attested NAV
  it leaves at most one unit under the claims: `FullDeleverageAtNav`.
* `components/vault-nav/src/lib.rs:519-520` promises a redemption minimum of at least the cushioned target. The
  minimum is that target only for an exact sale and one unit less otherwise: `SpotUnwindCoversShortfall`.
* `components/vault-nav/src/lib.rs:542-546` says that a sale capped at the collateral delivers less than the shortfall and
  that the floor check reverts. At the attested NAV it lands within one unit of the floor: `CappedRedemptionAtNav`.
* `components/vault-nav/src/lib.rs:613-617` says that claimable redeems are already reserved. The code deploys 99% of
  the lesser of NAV and balance, and NAV counts unlevered collateral: with 100 USDC of it and a balance of 50 USDC, all
  claimable, a 2.5x plan spends 49.5 USDC and leaves 30.0515 (`ClaimsDeployedExample`). `OpeningKeepsClaims` says, before
  the plan is built, exactly when the reserve stays, and `ReserveAtPar` what that comes to at par; for a vault without
  collateral it always does (`UninvestedVaultKeepsClaims`).
* `components/vault-nav/src/nav.rs:768-773` promises that a full exit inside the slippage tolerance lands at or above the
  escrow floor. Reserve and swap minimum are both floored, so it lands one unit below unless the priced collateral
  divides by 200 or the pool pays more than par: `FullExitPaysNav`, `FullExitFallsShort`.
* `components/vault-nav/src/nav.rs:53` describes leverage as debt over equity. The code measures position over
  equity, and so does the model.
* `packages/loop-deploy/src/deployer.ts:303-314` says that a landed write of another process is caught, and 351-353 that
  the next iteration verifies that a merge did not race. Three windows are open: a write mined in our block, ahead of ours
  (`SameBlockWritesAreLost`); one mined after our first write and before the merge, which the next iteration does not look
  for (`LateWritesAreLost`); and one our write replaced before somebody else replaced ours (`OvertakenWritesAreLost`).
  There are no others: `LostOnlyInThreeWindows`.
* `packages/loop-deploy/src/replay-cache.ts:10-12` says that a second sighting is refused. The routes read the clock once
  for the freshness check and again for the cache (`apps/loop-server/src/main.ts:294-295` and 363-364), and a signature
  may be dated up to 60 seconds ahead. Signed at 100 and observed at 101, a signature passes again when a repeat is
  checked at 400 and observed at 401. Some repeat passes exactly when the first acceptance came no later after the
  signing than a request may take between its two readings: `SecondUseExactlyWithinLag`.
* `packages/subgraph/src/priime-vault.ts:127` takes zero for "no minimum yet", so a NAV of zero is forgotten by the
  next strike of the day: `DayRangeIsExact` says exactly when the minimum is right.

## Model

| member | source | states |
|---|---|---|
| Mutation.MutationIsSafe | packages/loop-deploy/src/deployer.ts:318-387 | Whatever other writers and failing ports do, a mutation that returns names a document that is a result of its edit, at a URI that was the manager's at some moment of the call; it writes at most ten times in at most five attempts, and gives up only after five that each wrote. |
| Mutation.LostRepliesThrow | packages/loop-deploy/src/deployer.ts:322-372 | A refused call or a lost reply raises at whichever port call it happens, and only a pin or write that went through has changed anything by then. |
| ConcurrentAdditions.AddEditAddsOne | packages/loop-deploy/src/deployer.ts:257-285 | The edit a run submits puts one workflow in, leaves every other alone, and is the identity when the workflow is already there. |
| Attempts.LostOnlyInThreeWindows | packages/loop-deploy/src/deployer.ts:318-387 | Over every script and all attempts of a call that returns: a write of another process that one of ours replaced has all its workflows in a write of ours that the call returns on or that somebody else replaced, unless it was mined in the block of an attempt's first write, between that and the attempt's merge, or was replaced by an attempt that was itself overtaken before its re-read. |
| Attempts.EveryWriteIsAccounted | packages/loop-deploy/src/deployer.ts:318-387 | Every write of a call that returns is the first write or the merge of one of its attempts, each of which read its base since its checkpoint, put the edited base first and, unless overtaken, ended on exactly what was set strictly between; the URI returned stands in the log after which the call wrote no more. |
| Attempts.GivesUpAfterFive | packages/loop-deploy/src/deployer.ts:319-380 | A call ends exhausted only with exactly five attempts recorded, having written five to ten times. |
| Attempts.WindowsKeepNothing | packages/loop-deploy/src/deployer.ts:337-368 | A workflow that neither an attempt's base, nor the add, nor a document set strictly between has is in none of the attempt's writes, so what falls in a window is lost. |
| Attempts.MergeKeepsConcurrentAdditions | packages/loop-deploy/src/deployer.ts:322-372 | When nobody else writes after an attempt's first write, the call returns on the current document, which holds its own workflow as its edit made it, its base's unchanged, every other workflow of a document set strictly between as the earliest such document has it, and nothing else. |
| Attempts.OverlapsSurvive | packages/loop-deploy/src/deployer.ts:337-368 | For every attempt that was not overtaken, every single write in a block strictly between checkpoint and ours keeps all its workflows, and one that neither base nor add has keeps the content its first writer gave it. |
| MutationScripts.SameBlockWritesAreLost | packages/loop-deploy/src/deployer.ts:337-346 | Writes mined in our block ahead of ours are never seen: the call returns with the edited document alone. |
| MutationScripts.LateWritesAreLost | packages/loop-deploy/src/deployer.ts:348-372 | A write mined after an attempt's first write and before its merge is replaced, and the next attempt returns the merge without a scan. |
| MutationScripts.OvertakenWritesAreLost | packages/loop-deploy/src/deployer.ts:337-378 | When somebody else's URI is found at the re-read, what the scan found is dropped, and a next attempt with nothing to edit returns on the other's document. |
| MutationScripts.UndisturbedCallReturns | packages/loop-deploy/src/deployer.ts:322-346 | From the checkpoint of any of the five attempts, with every port answering and nobody else writing, a mutation returns after seven port calls and its edit is current. |
| MutationScripts.OvertakenCallReturns | packages/loop-deploy/src/deployer.ts:319-380 | A call overtaken up to four times, each time by another document, and then left alone returns with its edit current. |
| MutationScripts.FiveRaidsExhaust | packages/loop-deploy/src/deployer.ts:319-386 | Overtaken five times in a row, it gives up. |
| MutationScripts.RescuingCallReturns | packages/loop-deploy/src/deployer.ts:348-372 | A call that finds one replaced document with something to rescue pins and sets the merge, verifies it in the next attempt and returns it. |
| MutationQueue.LandedEditsInQueueOrder | packages/loop-deploy/src/deployer.ts:140-149 | With no other process writing, for any interleaving of adds, removals, nudges, crashes and lost replies, the document is the initial one with the landed edits applied in queue order, each at most once, and every mutation reported done is among them. |
| MutationQueue.TemplateSurvives | packages/loop-deploy/src/deployer.ts:176-178 | Whatever adds, removals, nudges and crashes are queued, the template workflow stays in the current document unchanged: no removal takes it out and no add overwrites it. |
| MutationQueue.NudgeAnnouncesAgain | packages/loop-deploy/src/deployer.ts:140-149 | A nudge reads the URI and writes that same URI once more, completes exactly when both are answered, and changes no document. |
| ServiceDoc.AddSpecification | packages/loop-deploy/src/builder.ts:78-127 | An added workflow carries the spec and points at its handler, everything else in the document is untouched, and removing it gives the document back. |
| ServiceDoc.CloneCarriesSpec | packages/loop-deploy/src/builder.ts:108-126 | The cloned workflow holds every config key of the spec, and submits to and reads its handler. |
| ServiceDoc.CloneRunsOnSpecWindow | packages/loop-deploy/src/builder.ts:102-108 | The clone's cron trigger has the schedule and window of the spec. |
| ServiceDoc.CloneChangesNothingElse | packages/loop-deploy/src/builder.ts:96-126 | At every level of the tree a clone differs from its template only in cron window, component config and submit target, and config keys the spec does not name are kept. |
| ServiceDoc.AddSucceedsExactly | packages/loop-deploy/src/builder.ts:78-127 | An add succeeds exactly for a fresh id of 3 to 36 lower-case letters, digits, underscores and hyphens and a named or sole template with the parts to fill in, and it is that template that is cloned. |
| ServiceDoc.RemoveTakesOne | packages/loop-deploy/src/builder.ts:133-144 | A removal takes exactly the named workflow out, fails exactly on a protected, missing or unreadable one, and never takes a protected one. |
| ServiceDoc.MergeMissingWorkflows | packages/loop-deploy/src/builder.ts:158-171 | The copying loop gives the target's workflows over the donor's, and the target itself when nothing is missing. |
| ServiceDoc.MergeKeepsBoth | packages/loop-deploy/src/builder.ts:158-171 | A merge has the workflows of both and the target's version of each shared one, is the target exactly when the donor adds nothing, and is idempotent. |
| ServiceDoc.KnobsCannotMoveServerFields | packages/loop-deploy/src/config.ts:360-388 | Each of the fourteen server and market fields arrives under its own key whatever the knobs hold, and every other knob passes through. |
| Registry.LoopRegistry.Create | packages/loop-deploy/src/registry.ts:117-128 | A taken id or workflow id inserts nothing; otherwise one fresh row is added and rows stay unique. |
| Registry.LoopRegistry.Update | packages/loop-deploy/src/registry.ts:145-178 | Exactly the named row changes, to what the patch means; an unknown id changes nothing. |
| Registry.ColumnsOf | packages/loop-deploy/src/registry.ts:145-173 | The assembled column list, run in order, sets exactly the properties present in the patch. |
| Pipeline.ActiveLoopsAreWired | packages/loop-deploy/src/deployer.ts:195-294 | Over every run of creates, resumes, crashes, failing ports and nudges, a loop marked active has its workflow in the current document with vault address and submit target equal to its recorded handler. |
| Pipeline.RowsOnlyMoveForward | packages/loop-deploy/src/deployer.ts:216-294 | Between any two moments of a run a recorded handler never changes and a step never moves back. |
| Pipeline.FailuresAreRecorded | packages/loop-deploy/src/deployer.ts:195-294 | A port that refuses ends the run in a failure, as a missing catalog entry does before anything is sent; recording it sets status and error of that row and nothing else. |
| Pipeline.ResumeStartsRuns | packages/loop-deploy/src/deployer.ts:120-125 | A resume starts a run exactly for a loop that is deploying or failed and not already being run. |
| Pipeline.OneVaultUnlessItsHashIsLost | packages/loop-deploy/src/deployer.ts:221-255 | The deploy transactions sent for a loop exceed the times a hash was lost between submission and its record by at most one, and by exactly one once a handler is recorded. |
| VaultOwnership.HandlerIsOwnVault | packages/loop-deploy/src/deployer.ts:216-255 | Over every run, a handler on a row is the vault the chain made for a transaction sent for that very loop, and a hash on file is one sent for it. |
| VaultOwnership.ActiveLoopsRunOnTheirVault | packages/loop-deploy/src/deployer.ts:195-294 | A loop marked active has a workflow in the current document that reads and submits to the vault one of its own transactions made, which is its recorded handler. |
| VaultOwnership.LoopsShareNoDeploy | packages/loop-deploy/src/deployer.ts:216-255 | No deploy transaction serves two loops. |
| VaultOwnership.UndisturbedCreateIsActive | packages/loop-deploy/src/deployer.ts:86-117 | A create of a catalogued candidate that nothing disturbs ends active with the vault of its transaction as handler and exactly the row it should have, and the current document runs its workflow on that vault from its start for its lifetime. |
| Deployer.LoopDeployer.MutateService | packages/loop-deploy/src/deployer.ts:318-387 | The retry loop returns, throws and changes the world exactly as the step machine does. |
| Deployer.LoopDeployer.Rewrite | packages/loop-deploy/src/deployer.ts:334-380 | Pin, set, scan and re-read end the call, or ask for another attempt, as the machine does. |
| Deployer.LoopDeployer.Rescue | packages/loop-deploy/src/deployer.ts:348-368 | The merge loop over clobbered documents takes the machine through every one of them to the next attempt. |
| Deployer.LoopDeployer.RunPipeline | packages/loop-deploy/src/deployer.ts:195-294 | A run ends and leaves its row, transactions and chain as the pipeline's turns do, recording a failure when one is raised, and touches no other row. |
| Deployer.LoopDeployer.DeployHandler | packages/loop-deploy/src/deployer.ts:216-255 | A transaction hash on file is waited for and never sent again; otherwise it is recorded before it is waited for. |
| Deployer.LoopDeployer.ResumeLoop | packages/loop-deploy/src/deployer.ts:120-125 | Unknown loops raise, finished ones come back untouched, all others run on from their recorded step. |
| Deployer.LoopDeployer.CreateLoop | packages/loop-deploy/src/deployer.ts:86-117 | A conflicting row runs nothing; otherwise the fresh row is run from the start. |
| DeployerRefinement.DriveIsARun | packages/loop-deploy/src/deployer.ts:195-294 | What a call of the class does, whatever its ports answer, is a run of the system of `Pipeline`. |
| BlockSearch.ReferenceMeaning | components/vault-nav/src/blocks.rs:32-94 | The reference errs exactly when the head has not passed the target or genesis has; otherwise it is the last block at or before it. |
| BlockSearch.BlockAtOrBefore | components/vault-nav/src/blocks.rs:32-94 | On a chain the search equals the reference and makes at most 1 + 2k lookups once 2^k - 1 covers the gap; whatever the lookup says, an answer sits on the boundary and a failure names a block that failed. |
| BlockSearch.WalkBack | components/vault-nav/src/blocks.rs:62-77 | The doubling walk-back stops at a block at or before the target whose previous stop was past it. |
| BlockSearch.Bisect | components/vault-nav/src/blocks.rs:79-93 | The bisection ends on the boundary within as many probes as the bracket has bits. |
| BlockSearch.HeadIndependent | components/vault-nav/src/blocks.rs:42-60 | Two nodes that agree on the blocks both have, each past the target, get the same answer. |
| BlockSearch.ResolveInputsBlock | components/vault-nav/src/blocks.rs:98-115 | On a chain it succeeds exactly when the head has passed the target and some block at or past the lag has not, with the last block at or before the target less the lag; each of the three errors comes exactly on its own condition. |
| BlockSearch.OperatorsAgree | components/vault-nav/src/blocks.rs:98-115 | Two operators whose nodes agree on the blocks both have, each past the target, resolve to the same block or the same error. |
| TickRatio.RatioError | components/vault-nav/src/nav.rs:537-588 | After every prefix of factors the running ratio is below the exact rational product by less than one unit per applied factor. |
| TickTables.RatioStaysUp | components/vault-nav/src/nav.rs:537-588 | For every tick in range the ratio ends far above zero. |
| TickTables.FactorsFollowSquareLaw | components/vault-nav/src/nav.rs:546-572 | The first factor is 1/sqrt(1.0001) to within a unit in the last place and each other one the square of the one before to within two, both ways. |
| TickRatio.RatioFalls | components/vault-nav/src/nav.rs:537-588 | For any such table the ratio falls from each tick to the next by four parts in 100,000, less its rounding units. |
| TickMath.RatioGap | components/vault-nav/src/nav.rs:537-588 | Inside the tick range that leaves a fall of two units of the final rounding, more than all rounding errors together. |
| TickMath.AvgTick | components/vault-nav/src/nav.rs:521-533 | The average tick is the floor of the quotient toward minus infinity, with an error exactly for an empty window or an overflow. |
| TickMath.SqrtRatioX96AtTick | components/vault-nav/src/nav.rs:537-588 | The loop on wrapping words never wraps and gives the rounded-up ratio, failing exactly outside the tick range. |
| TickMath.SqrtRatioRises | components/vault-nav/src/nav.rs:537-588 | The sqrt ratio rises strictly with every tick. |
| TickMath.SqrtRatioEnds | components/vault-nav/src/nav.rs:537-588 | The extreme ticks give the canonical least and greatest ratios. |
| TickMath.SqrtRatioBounds | components/vault-nav/src/nav.rs:537-588 | No tick leaves those bounds. |
| TickMath.OppositeTicksAreReciprocal | components/vault-nav/src/nav.rs:537-588 | Above zero the ratio of a tick is the largest number whose product with the ratio of the negated tick stays under 2^256. |
| TickMath.PriceIsTheSquare | components/vault-nav/src/nav.rs:593-602 | The price is the square of the sqrt ratio over 2^192 at 36 decimals, rounded down, and one at tick zero. |
| TickMath.PriceAtTick | components/vault-nav/src/nav.rs:593-602 | In range the price is the floor of the exact square and the overflow error is never taken. |
| TickMath.PastTheRangePricesOverflow | components/vault-nav/src/nav.rs:537-602 | The range check is needed: at tick 983040 the loop still ends above zero but its price no longer fits 256 bits. |
| TickMath.PriceIsMonotone | components/vault-nav/src/nav.rs:593-602 | A higher tick never prices lower. |
| DebtMath.AccrualExact | components/vault-nav/src/nav.rs:472-486 | Within the stated bounds the wrapping accrual is the exact floored Taylor sum. |
| DebtMath.AccrualMonotone | components/vault-nav/src/nav.rs:472-486 | Accrued borrow grows with assets, rate and elapsed time. |
| DebtMath.AccrualBounds | components/vault-nav/src/nav.rs:472-486 | It lies between linear interest rounded down and the exact three-term Taylor value. |
| DebtMath.DebtIsCeiling | components/vault-nav/src/nav.rs:456-467 | Share debt is the least whole amount not below the exact quotient. |
| DebtMath.SplittingNeverLowersDebt | components/vault-nav/src/nav.rs:456-467 | Two parts of a position owe at least the whole and at most one unit more. |
| DebtMath.DebtMonotone | components/vault-nav/src/nav.rs:456-467 | More shares, or more assets behind them, never owe less. |
| Deleverage.UnwindCoversShortfall | components/vault-nav/src/lib.rs:449-505 | Wherever the cushion pays for slippage and rounding at the position's leverage, a partial unwind's minimum, less what its shares pull at the same accrual, is at least the shortfall. |
| Deleverage.CushionPaysBelowForty | components/vault-nav/src/lib.rs:463-474 | The cushion pays up to 39.9x for shortfalls from 84,000 base units, and up to 30x from 500. |
| Deleverage.UnwindFallsShort | components/vault-nav/src/lib.rs:449-505 | Wherever the leverage has outrun the cushion, every unwind, partial or full, leaves less than the shortfall, at a TWAP up to par and with at most one asset behind a share. |
| Deleverage.CushionOutrunPastForty | components/vault-nav/src/lib.rs:463-474 | The cushion is outrun from 40.1x for every shortfall from 25,000 base units. |
| Deleverage.PartialUnwindExample | components/vault-nav/src/lib.rs:449-505 | A 3x position with a partial unwind that meets every condition of that coverage. |
| Deleverage.FullUnwindCovers | components/vault-nav/src/lib.rs:449-505 | A full unwind sells all the collateral and repays the whole debt, and covers the shortfall exactly when 200 (shortfall + debt) is at most 199 times what the pool pays for the collateral, which up to par is its priced value. |
| Deleverage.FullUnwindExample | components/vault-nav/src/lib.rs:463-474 | The same 3x position asked for 1,000,001 units: the cushion pays, the unwind is full, and 985,000 are left. |
| Deleverage.FlashPrincipalCoversPull | components/vault-nav/src/lib.rs:488-492 | The principal covers the pull exactly when the debt slice is at least 5000 units or the pull did not round past it; a full unwind pulls exactly the debt. |
| Deleverage.FlashPrincipalCoversAccrual | components/vault-nav/src/lib.rs:488-492 | The principal covers the pull at a later accrual as long as the borrow total has not grown beyond the slice with its 1/5000, less one unit of rounding. |
| Deleverage.OneBasisPointIsAbsorbed | components/vault-nav/src/lib.rs:488-492 | One basis point of growth is within that for every slice of 20,000 units or more. |
| Deleverage.FullUnwindFallsShort | components/vault-nav/src/lib.rs:478-492 | For a full unwind any growth beyond the 1/5000, plus one unit of rounding, outgrows the principal. |
| Deleverage.AccrualOutgrowsPrincipal | components/vault-nav/src/lib.rs:478-492 | For any unwind, partial too, growth beyond its slice's 1/5000, plus two units of rounding, outgrows the principal, with at most one asset behind a share. |
| Deleverage.CushionIsNotTwentyBps | components/vault-nav/src/lib.rs:488-492 | Three basis points of accrual outgrow the principal of every full unwind of 10,004 units or more. |
| Deleverage.SmallSliceFallsShort | components/vault-nav/src/lib.rs:490-492 | A slice under 5000 units whose pull exceeds its principal. |
| Deleverage.HighLeverageUndershoots | components/vault-nav/src/lib.rs:463-474 | A 50x position where the cushion is outrun and a partial unwind frees 982,500 of 1,000,000 units. |
| Redemption.SpotUnwindCoversShortfall | components/vault-nav/src/lib.rs:521-547 | The planned minimum is the cushioned target, exactly for exact sales, or one unit less, and it covers the shortfall exactly from 100 base units up. |
| Redemption.FullExitPaysNav | components/vault-nav/src/nav.rs:755-775 | Selling all collateral at the slippage limit and repaying the debt leaves the attested NAV above the escrow floor exactly when the priced collateral divides by 200 or the pool pays more than it was priced at, and never more than one unit less. |
| Redemption.FullExitFallsShort | components/vault-nav/src/nav.rs:755-775 | Up to par the exit meets the NAV to the unit when the priced collateral divides by 200 and is one unit short otherwise. |
| Redemption.AttestedNavIsExact | components/vault-nav/src/nav.rs:755-775 | A strike attests collateral less 1/200 plus idle USDC less debt, never below zero, and 99% of that rounded down under the conservative preset; it fails exactly when the floor overflows or the balance is under it. |
| OpenPosition.OpeningLandsOnTarget | components/vault-nav/src/nav.rs:203-213 | At par the measured leverage of a fresh position with the planned borrow is the target or one basis point below, the target exactly when it divides the position, and the drift check accepts it. |
| OpenPosition.HeldCollateralLowersLeverage | components/vault-nav/src/nav.rs:203-213 | Collateral already held never brings the measured leverage above the target. |
| PlanMath.DriftIsABand | components/vault-nav/src/nav.rs:854-878 | For a tolerance of up to all of it, the drift check accepts exactly a measured leverage within that share of the configured one, or less than one USDC of debt, or no configured leverage. |
| PlanEffects.OpeningPlanRuns | components/vault-nav/src/nav.rs:189-286 | No step of the opening plan a strike emits lacks tokens or allowance: it runs on the vault's book exactly when the market's liquidation LTV allows the borrow, and then it has spent the sized amount, supplied all it bought, borrowed what was sized and used up every allowance it gave. |
| PlanEffects.MarketLends | components/vault-nav/src/nav.rs:183-188 | At an oracle price of par or more, a configured leverage whose debt share is within the liquidation LTV always gets its borrow; at par or less, for a vault that held nothing, one beyond it by more than the rounding never does. |
| PlanEffects.OpeningPlanLandsOnTarget | components/vault-nav/src/lib.rs:586-661 | The position that plan leaves is read at or below the configured leverage at par; without collateral held before it is read at it or one basis point below, and the drift check accepts it. |
| PlanEffects.OpeningKeepsClaims | components/vault-nav/src/lib.rs:613-629 | The plan leaves the claimable USDC exactly under a condition on the state, the pool price and the configured leverage: what is spent beyond the free balance is nothing, or the spend buys the USDe whose position borrows it back. It does whenever 99% of what is usable rounds to no more than the free balance, and never, at par or above, when the equity of the spend exceeds that. |
| PlanEffects.ReserveAtPar | components/vault-nav/src/lib.rs:613-629 | At par that condition is one product: 199 times the spend against 200 times the value that borrows the excess. |
| PlanEffects.UninvestedVaultKeepsClaims | components/vault-nav/src/lib.rs:613-629 | With the attested NAV of a vault without collateral, for any preset, the plan leaves every claim and pending deposit in the vault. |
| PlanEffects.ClaimsDeployedExample | components/vault-nav/src/lib.rs:613-629 | With 100 USDC of unlevered collateral and all of a 50 USDC balance claimable, the 2.5x plan emitted at par swaps 49.5 USDC, borrows 29.5515 and leaves 30.0515. |
| ActionPlan.NeverLeversAgainstRedemptions | components/vault-nav/src/lib.rs:393-661 | No plan levers up while redemptions are pending or debt is outstanding, none both frees and deploys capital, and capital is freed only for a shortfall. |
| ActionPlan.PlansAreOwed | components/vault-nav/src/lib.rs:393-661 | A strike deleverages, redeems from collateral or opens exactly under conditions that exclude each other, each stated whole; it fails exactly on a knob that is unreadable where it is read, and otherwise emits nothing. |
| EscrowFloor.RedemptionsArePricedProRata | components/vault-nav/src/lib.rs:424-441 | Pending redemptions claim the floor of their share of NAV plus pending deposits, all of it when every share asks out, and nothing while there are no shares. |
| EscrowFloor.DeleverageKeepsEscrowFloor | components/vault-nav/src/lib.rs:419-505 | The partial deleverage plan the strike emits, at its slippage limit, leaves the vault at or above what was claimable plus the redeemers' pro-rata share of NAV and pending deposits. |
| EscrowFloor.FullDeleverageAtNav | components/vault-nav/src/lib.rs:263-302 | At the attested NAV of any preset and at any leverage, the full deleverage plan the strike emits leaves the vault at most one unit under those pro-rata claims, and not under them when the priced collateral divides by 200 or the pool pays more than it was priced at. |
| EscrowFloor.RedemptionKeepsEscrowFloor | components/vault-nav/src/lib.rs:507-573 | The uncapped zero-debt redemption plan the strike emits runs and leaves the vault at or above the pro-rata claims exactly when the shortfall is at least 100 base units. |
| EscrowFloor.CappedRedemptionAtNav | components/vault-nav/src/lib.rs:541-573 | At the attested NAV, a redemption capped at the collateral sells all of it and leaves the vault at most one unit under the pro-rata claims, on the same two conditions not under them. |
| ConfigBytes.CanonicalBytes | components/vault-nav/src/lib.rs:151-196 | The buffer is the entries of the tracked keys in list order, absent keys skipped. |
| ConfigBytes.ConfigBytesInjective | components/vault-nav/src/lib.rs:151-196 | Two configs without newlines give the same buffer exactly when they agree, present or absent, on every tracked key. |
| ConfigBytes.BytesPinTheDeployment | components/vault-nav/src/lib.rs:139-196 | Two deployed configs give the same buffer only when all their server and market fields, their leverage and their risk preset are the same, whatever the other knobs hold. |
| ConfigBytes.NewlineCollides | components/vault-nav/src/lib.rs:186-194 | With a newline in a value, two different configs give the same buffer, for any two keys in list order. |
| SortByKey.SortedIsUnique | apps/replay-ui/lib/replay.ts:388-394 | Where keys differ there is one sorted arrangement, so the engine's choice of algorithm does not matter. |
| ReplayTimeline.EarliestOf | apps/replay-ui/lib/replay.ts:300-309 | The least timestamp of the journal, zero for an empty one. |
| ReplayTimeline.BuildTimeline | apps/replay-ui/lib/replay.ts:326-417 | Sorting by push order and pacing with a cursor gives the timeline of the documented order: time, kind, appearance. |
| ReplayTimeline.ScheduleIsTheJournal | apps/replay-ui/lib/replay.ts:326-394 | The schedule is a permutation of the journal's events, sorted, with the trigger first. |
| ReplayTimeline.GapsAreClamped | apps/replay-ui/lib/replay.ts:396-413 | The first event fires after the lead-in and every gap lies between floor and ceiling. |
| ReplayTimeline.GapsFollowTheJournal | apps/replay-ui/lib/replay.ts:396-413 | Each gap is the elapsed whole seconds times the rate, rounded to the nearest millisecond, where that lies between floor and ceiling, and the floor or the ceiling otherwise. |
| ReplayTimeline.LongerIsNotShorter | apps/replay-ui/lib/replay.ts:396-413 | A longer elapsed time never gives a shorter gap. |
| ReplayTimeline.OffsetsIncrease | apps/replay-ui/lib/replay.ts:396-413 | Offsets strictly increase. |
| ReplayGrowth.OldTimelineIsAPrefix | apps/replay-ui/lib/replay.ts:326-417 | Appending only later submissions, transitions or the first landing to a journal with a timestamp keeps every old event at its old offset. |
| ReplayGrowth.UntimedJournalsMove | apps/replay-ui/lib/replay.ts:300-309 | For every journal without a timestamp and everything it grows into once one arrives, the old timeline stays a prefix exactly when the new earliest timestamp is zero and nothing had landed; the trigger keeps its offset and takes the new source time. |
| ReplayState.PlaybackNeverGoesBack | apps/replay-ui/lib/replay.ts:462-559 | As playback time grows the phase stays or rises in rank, and operators, transitions and the landing only accumulate. |
| ReplayState.TheEndShowsEverything | apps/replay-ui/lib/replay.ts:462-559 | At the end, which is also what a time that is not a number means, every operator and transition is shown, settled, stalled and rejected strikes show that outcome and a pending one keeps its phase. |
| ReplayState.DueIsShown | apps/replay-ui/lib/replay.ts:462-559 | At any time exactly the first events are due, and the state lists each due submission once, in order, at its offset and against the winning hash, the due quorum steps with the last one's weight, the journal's own landing, and the furthest phase these reach. |
| ReplayCache.ReplayCache.EvictExpired | packages/loop-deploy/src/replay-cache.ts:66-70 | Exactly the entries expiring later than now stay. |
| ReplayCache.ReplayCache.Observe | packages/loop-deploy/src/replay-cache.ts:53-59 | Refuses exactly a signature on file, records a new one, and leaves only entries that expire later than now. |
| ReplayCache.Serve | apps/loop-server/src/main.ts:288-295 | Checking each request and then showing it to the one cache, read by read of the clock, lets through exactly the requests the run's history accepts. |
| ReplayCache.AcceptedExactly | packages/loop-deploy/src/auth.ts:186-194 | A request is accepted exactly when it was signed at most 300 seconds before its check and at most 60 after it, and no request with its signature was accepted within the time to live before it is observed. |
| ReplayCache.RepeatNeedsLag | apps/loop-server/src/main.ts:294-295 | Under a clock that never goes back, a repeat gets through only if it waits between its two readings at least as long as the first acceptance came after the signing. |
| ReplayCache.SingleUse | packages/loop-deploy/src/auth.ts:186-194 | Where no request takes longer than a lag between its readings, a signature accepted later than that lag after its signing is never accepted again. |
| ReplayCache.SecondUseExactlyWithinLag | packages/loop-deploy/src/auth.ts:186-194 | For every first acceptance and every lag, some repeat no slower than the lag is accepted too exactly when the first came no later than the lag after the signing. |
| Subgraph.Store.HandleNavUpdated | packages/subgraph/src/priime-vault.ts:98-130 | One NAV log moves its vault and its day's bucket and no other entity. |
| Subgraph.Store.HandleRedeemRequestFulfilled | packages/subgraph/src/priime-vault.ts:197-218 | One fulfilled redeem moves its vault, skipping shares it cannot cover, and its day's bucket. |
| Subgraph.Store.Replay | packages/subgraph/src/priime-vault.ts:36-92 | Handling a list of logs leaves exactly the entities of the fold over them. |
| Subgraph.DailyTotalsAreTheCounters | packages/subgraph/src/priime-vault.ts:98-258 | Summed over days, deposits and redeems fulfilled equal the vault's totals and the logs' amounts, and strikes and executed plans their logs. |
| Subgraph.RequestsAreCounted | packages/subgraph/src/priime-vault.ts:132-174 | The requested totals are the amounts asked for, and the days count every request and rejected plan once. |
| Subgraph.DaysCountTheirOwn | packages/subgraph/src/priime-vault.ts:72-258 | Every counter of a day's bucket is what the logs of that vault with a timestamp in those 86,400 seconds come to. |
| Subgraph.LatestStrikeIsShown | packages/subgraph/src/priime-vault.ts:118-122 | A vault shows the readings of its latest strike, and zeros before any. |
| Subgraph.CreatedByTheFirstLog | packages/subgraph/src/priime-vault.ts:36-70 | A vault exists from its first log on and keeps that log's time. |
| Subgraph.SharesAreMintedMinusRedeemed | packages/subgraph/src/priime-vault.ts:176-218 | Total shares are never below minted minus redeemed, and equal to it exactly when no redeem took more than was outstanding. |
| Subgraph.DayRangeIsExact | packages/subgraph/src/priime-vault.ts:124-129 | A day's last and greatest NAV are its logs', and its least too exactly when no NAV was zero or the last one was. |
| FormatPct.DivRoundIsHalfAway | apps/replay-ui/lib/format.ts:25-31 | The quotient is within half a unit, ties away from zero, for all signs. |
| FormatPct.HalfAwayIsUnique | apps/replay-ui/lib/format.ts:25-31 | No other integer is. |
| FormatPct.PercentagesReadBack | apps/replay-ui/lib/format.ts:48-67 | The printed text reads back as the true percentage rounded half away from zero at the digits shown, with its sign, none for zero and no leading zeros, and only a zero baseline fails. |

## Left out

- `deactivateLoop` and pauses: a removal can land and still report failure, so "active implies wired" is stated for create and resume; removals are in the queue theorem.
- Two runs of one loop at a time, and another process using the same registry.
- Pipeline.ActiveLoopsAreWired: assumes that no other process writes the manager's URI, that the chain view is consistent, and that a new random workflow id is not in the document already.
- MutationQueue.LandedEditsInQueueOrder: a write takes effect at once or never. An own transaction whose receipt wait fails (`packages/loop-deploy/src/chain.ts:357`) may in truth be mined during the next mutation; that delay is not modelled here nor in `Pipeline`.
- Mutation.MutationIsSafe: documents are compared by value where the source compares references; for the edits that exist the two agree.
- Deployer.LoopDeployer.MutateService: the promise chain of `mutationTail` is the queue of `MutationQueue`; a call of the class runs to its end before the next one.
- Attempts.LostOnlyInThreeWindows: about calls that return, with an edit that adds one workflow. A call that throws or dies between its first write and its merge has replaced documents it never fetched.
- ReplayCache.SingleUse: a restarted process has an empty cache; one process is modelled.
- ReplayTimeline.BuildTimeline: offsets are reals, so rounding of binary floating point is not modelled; timestamps are whole seconds.
- Subgraph.DailyTotalsAreTheCounters: 32-bit day counters do not wrap here, and the immutable row of each log and the values read once from the contract are not kept.
- Deleverage.UnwindFallsShort: between `CushionPays` and `CushionOutrun`, and likewise between `FlashPrincipalCoversAccrual` and `FullUnwindFallsShort`, lies a band of rounding where the outcome depends on the remainders.
- PlanEffects.OpeningPlanRuns: swaps fill at their minimum and the market has what is borrowed; the vault's flash-loan callback is judged by `Deleverage` and `EscrowFloor`, not played. Of the market's parameters only the liquidation LTV is kept.
- PlanEffects.OpeningKeepsClaims: a pool price of zero or at least 10,000 units of 1e-24, so that no product leaves 256 bits.
- EscrowFloor.FullDeleverageAtNav: NAV and pending deposits together below 2^127 base units, and a pool price up to 10^30.
- Deleverage.UnwindCoversShortfall: shortfalls below 2^160, a TWAP below 2^128 and an equity up to 1e18 base units, so that no product leaves 256 bits.
- Validation of a loop config, the pool preflight and the catalog's contents: an input says whether they pass.
- `run_cycle`, `check_hf_floor`, `check_deleverage_threshold`, `check_reserve_floor` and the other measured ratios: single comparisons or quotients.
- `parse_decimal_bps` and `encodeTargetLeverage`: floating point.
- Addresses, calldata, ABI encoding, hashing, signature recovery and JSON text: opaque values or parsed trees.
- The Solidity vault is not part of this model; plans are judged by the arithmetic they guarantee.
- RPC, IPFS, SQLite and HTTP plumbing, and every user-interface component.
