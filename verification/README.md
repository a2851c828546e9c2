# The Dogecoin indexer, verified

The repository folds Dogecoin blocks into tables: two token ledgers (drc-20 and meme-20), constant-product pools in two
versions, a bonding curve ("pump") that graduates into a pool, consensus stake records with a fixed-point score, a
StakeV2 reward accumulator and escrowed limit orders. When its node reorganises, it undoes its own work from revert
rows and scans again. This project models those tables and operations and proves what they keep.

## How the model is built

- `Ledger.dfy` holds the two token ledgers as values. A token's holders are a multiset of units, so a balance is a
  multiplicity, and "the balances add up to the supply" is an equation between a cardinality and a number.
- `Database.dfy` is the whole database as a value, the single writes the storage layer makes to it (`Step`), a storage
  transaction as a list of writes (`Run`: all or nothing), and `Fork`, the undo, phase by phase.
- `Swap.dfy`, `Pump.dfy` and `Execute.dfy` say which writes each operation makes, behind which guards, with the router's
  deposits and withdrawals around them; `ExecuteTx` is one transaction as `scan` takes it, `ExecuteAll` one block.
- `Tables.dfy` and `Storage.dfy` are the same operations in place: classes over table rows, one method per operation of
  the storage layer, undo loops, `fork`, and the routers with begin, commit and rollback. Each method is proved to
  compute exactly what the value model says. `Explorer.dfy` is the scanning loop with `forkBack` over those tables,
  against a node that may show another chain at every iteration.
- The other files hold the theorems: `Rollback`, `Dispatching`, `ForkLaws`, `Chronicles`, `Reorg`, `Histories` and
  `Limits` (undo and reorganisation, and runs that show where conditions fail), `Quotes`, `Effects`, `PoolSafety`,
  `OrderSafety`, `RunSafety`, `Traders`, `Receipts` and `Routing` (pools), `PumpSafety`, `Graduation`, `PumpRuns`, `Trades`
  and `PumpReceipts` (curve), `Escrows` and `Score` (consensus), `SingleOps`, `Turns`, `SupplyCap`, `StakeV2`,
  `StakeDues` and `Exchange`.

## The main results

- **Every history.** For any interleaving of blocks, half-finished blocks taken up again, and forks to any recorded
  height, no fork gets stuck, both ledgers stay conserved, every pool keeps `total^2 <= r0 r1` with its minimum
  liquidity, no user tick exceeds its maximum, every active consensus record is backed by its escrow, and, when
  payments go to users only, every curve is backed to the unit (`Histories.EveryHistory`).
- **Reorg equals replay, exactly.** Forking to height `c` gives what indexing only up to `c` gives if and only if no tick
  was deployed above `c`, no consensus transaction was recorded above `c`, and no pool cache was stale at `c`
  (`Reorg.ForkReplay`). `Limits` holds for each condition a run in which it fails. Over chains without those three, the
  scanning loop keeps the tables equal to a fresh indexing of the node's chain, whatever reorganisations the node shows
  (`Scanner.Explorer.Scan`).
- **Between two states.** Over any stretch of a history without a fork, and between any two blocks of a chain, no pool is
  diluted, a consensus stake is released at most once, and, when payments go to users only, a closed curve is frozen
  (`Histories.EveryStretch`, `Histories.ChainOnward`). A fork ends such a stretch: it gives a curve its earlier row back (`Histories.ForkReopens`).
- **No free lunch.** On a pool whose cache is the ledger, no sequence of one trader's swaps leaves more of one token
  without less of the other (`Traders.SwapsPaidFor`). After a direct payment the cache lags behind the ledger until the
  next order on the pair or the next fork, and then it is false: `Limits.StaleSwapPays` is a run that gains 902 for nothing. The product of the ledger's
  reserves survives every run of swaps exactly when the first swap is no better than the ledger's own price
  (`Traders.StaleProductIff`), and then nothing is to be had for nothing either (`Traders.StaleSwapsPaidFor`).
- **To the unit.** For every operation, exactly when it is accepted and the balance of every address in every token
  afterwards, with quotients given by the inequalities that determine them: swaps, adds, removes and creates (`Receipts`),
  the router with native coins (`Routing`), the pump (`PumpReceipts`), everything else that `scan` dispatches
  (`SingleOps`), limit orders, and StakeV2 (`Dues`), where what is emitted is delivered as well as never exceeded
  (`Dues.RewardDelivered`, `Farms.RewardBound`).
- **Where code and code disagree.** The guard closes a curve at 3.3e12 (virtual WDOGE included), storage graduates it at
  1.0e13 real WDOGE: a curve in between is stuck until a fork undoes the trade that brought it there
  (`PumpRuns.StuckForever`, `Histories.ForkReopens`), and a trade graduates a curve if and only if it jumps the whole gap
  (`Trades.GraduatesIff`); `Limits.StuckRun` leaves one stuck from empty tables. A curve covers every holder's sale if and
  only if its product is above a bound that a deploy meets with reserve 0 and with no other reserve
  (`PumpSafety.SalesCoveredIff`, `Trades.DeployedCoveredIff`, `Trades.ReserveSaleFails`). The reward shown to a client
  leaves out what is pending when nothing newly accrued (`Farms.QuoteAgreesIff`, `Farms.QuoteDropsPending`). An order can
  be cancelled by anybody, and the tokens go to whoever cancels (`Orders.CancelIff`). The comment above the score function
  describes it as amount times duration; the code computes amount times `ln(1 + duration)`, and the model follows the
  code.

## Model

| member | source | states |
|---|---|---|
| Ledger.TransferUndone | explorer/drc20.go:199-219 | undoing a transfer's revert row gives back the ledger before the transfer, to the last row |
| Ledger.MintUndoneIff | explorer/drc20.go:200-204 | a mint's revert row undoes it if and only if the holder column is not empty; otherwise it reads as a transfer from nobody to nobody and fails |
| Ledger.BurnUndoneIff | explorer/meme20.go:180-192 | the same for a burn |
| Ledger.RewindConserves | explorer/drc20.go:185-219 | replaying any revert log backwards keeps holders' balances adding up to the supply |
| PoolSafety.RunConserves | storage/common.go:42-248 | every successful list of storage writes keeps balances adding up to the supply, in both ledgers |
| Rollback.ApplyTracks | storage/pump.go:292-303 | each single write leaves the state one undo step away: rewinding its revert rows leads back to the earlier state |
| Rollback.TokensRestored | explorer/fork.go:81-104 | what the ledger phases and the deletions of created tokens leave of both ledgers |
| Rollback.ForkRestores | explorer/fork.go:74-159 | a fork after any run succeeds and restores both ledgers on every earlier tick, curves, consensus records, pair rows and all revert rows |
| Rollback.ForkExact | explorer/fork.go:161-249 | a fork gives back the whole database of its height if and only if nothing was orphaned, no consensus row strayed, and the caches agreed |
| ForkLaws.ForkTwice | explorer/fork.go:74-159 | forking to `h1` and then to `h2 <= h1` is forking to `h2`, also when the forks are not exact |
| ForkLaws.ForkTracks | explorer/fork.go:74-159 | what comes out of a fork can be forked again to anything below |
| ForkLaws.ForkSafe | storage/swap.go:310-361 | after a fork every pool of both versions is sound and its cache equals the ledger, direct payments or not |
| ForkLaws.ForkCurve | explorer/pump.go:261-292 | after a fork every curve row and its backing are what they were |
| ForkLaws.ForkConserves | explorer/fork.go:74-159 | a fork to any height conserves both ledgers |
| Dispatching.DispatchIsRun | explorer/scanner.go:127-332 | every dispatched operation is one list of writes, of the kinds and from the addresses its protocol may touch |
| Dispatching.ExecuteTracks | explorer/scanner.go:127-332 | any transaction above a height can be rolled back to that height |
| Quotes.Isqrt | storage/swap.go:22-27 | the floored square root of `big.Int.Sqrt` |
| Quotes.CreateSound | storage/swap.go:22-31 | a new pool has `total^2 <= r0 r1` and more than the minimum liquidity |
| Quotes.AddStep | storage/swap.go:111-136 | an add mints no more than its payment is worth: `r0 r1 / total^2` does not fall |
| Quotes.RemoveStep | storage/swap.go:177-185 | a remove pays out no more than the floored share |
| Quotes.SwapStep | storage/swap.go:227-232 | the fee, the floor and the product formula never lower the product of the reserves |
| Quotes.OutKeepsProduct | storage/pump.go:237-239 | the output stays below the reserve and keeps the product, so no pool is emptied |
| Quotes.SoundStep | storage/swap.go:97-252 | a step that dilutes nobody keeps a pool sound |
| Quotes.NoFreeLunch | storage/swap.go:213-252 | of two rows of one pool with the same liquidity, the undiluted later one is lower in one reserve only if it is higher in the other |
| OrderSafety.SettledWithin | storage/swap.go:111-125 | the two amounts an add settles on never exceed the offered ones |
| OrderSafety.CreateCore | storage/swap_v2.go:17-111 | a created pair holds what was paid in, plus what was already there, issues the square root, and is sound |
| OrderSafety.AddCore | storage/swap_v2.go:131-196 | an add, paying the settled or the full amounts, keeps its pool sound, dilutes nobody, and refreshes the cache |
| OrderSafety.RemoveCore | storage/swap.go:169-211 | a remove never redeems the minimum liquidity, keeps the pool sound and dilutes nobody |
| OrderSafety.ExecCore | storage/swap_v2.go:284-324 | a swap in either direction keeps the pool sound and refreshes the cache |
| OrderSafety.OrderSafe | storage/swap.go:17-308 | any order that goes through keeps every pool sound and dilutes none, and its own cache then equals the ledger |
| RunSafety.PairSafe | explorer/scanner.go:588-728 | so does a whole pair transaction, with its deposit and withdrawal, whether its orders succeed or are rolled back |
| RunSafety.BlockSafe | explorer/scanner.go:127-332 | so does any block of any transactions; without direct payments every cache stays equal to the ledger |
| RunSafety.StagesNoDilution | storage/swap.go:97-252 | over any number of blocks without a fork between, a pool row's reserves stay positive, the value behind its liquidity never falls, and a row whose liquidity ends where it began shows less of one token only with more of the other |
| Traders.SwapsPaidFor | storage/swap.go:213-252 | on a pool of either version whose cache is the ledger, no sequence of one trader's swaps, over any transactions and blocks, leaves more of one token (coins paid in and out counted) without less of the other, or touches a third |
| Traders.OrdersPaidFor | storage/swap_v2.go:246-334 | the same within one transaction |
| Receipts.SwapPays | storage/swap.go:213-252 | a swap that goes through, v1 or v2: the holder pays `amt`, the pool pays out the floor of `x * rout / (rin + x)` for `x = amt - 3 * (amt / 1000)`, no other balance changes, and the row is refreshed |
| Receipts.SwapIff | explorer/verifys.go:1266-1337 | a swap is accepted if and only if the pair has the input, the holder can pay, and that floor is something and at least the minimum; with v2, as the holder's first completed v2 swap of the block |
| Receipts.AddPays | storage/swap.go:97-167 | an add settles its offer in proportion, mints the holder the most liquidity that stays in proportion to both settled amounts, and takes the settled amounts (v1) or the whole offer (v2); no other balance changes |
| Receipts.AddIff | explorer/verifys.go:1145-1233 | an add is accepted if and only if its guard's branch and the settlement both hold and the holder can pay at least one unit of each |
| Receipts.RemovePays | storage/swap.go:169-211 | a remove pays out exactly the two floored shares for the liquidity it burns |
| Receipts.RemoveIff | storage/swap.go:169-211 | a remove is accepted if and only if the holder has the liquidity and both shares are something |
| Receipts.CreatePays | storage/swap.go:17-95 | a create takes both payments and issues the floored root of their product: a thousand to the pair, the rest to the creator |
| Receipts.CreateOrderIff | storage/swap_v2.go:17-111 | a create is accepted if and only if it names two tokens, the product reaches 1001 squared, the names are new and the creator can pay |
| Routing.DepositIs | explorer/scanner.go:593-623 | what one order makes the router deposit: the WDOGE it offers, on every side and of every kind of order |
| Routing.DepositsAppend | explorer/scanner.go:593-623 | the deposits of several orders add up |
| Routing.OrdersAppend | explorer/scanner.go:650-712 | several orders run one after the other and owe the sum |
| Routing.PairRouted | explorer/scanner.go:588-728 | the coins come in as the holder's WDOGE and stay so when the orders fail; otherwise exactly what the orders owe leaves as coins |
| Routing.SwapTx | explorer/scanner.go:588-728 | a transaction of one swap, with coins or not: when it is accepted, and the balance of every address afterwards |
| Traders.StaleProductIff | storage/swap.go:213-252 | when a direct payment has left the cache behind, the product of the ledger's reserves stays at least what it was, at every later point of any run of swaps, if and only if the first swap was no better than the ledger's price |
| Traders.StaleSwapsPaidFor | storage/swap.go:213-252 | after a first swap no better than the ledger's price, nothing is to be had for nothing on a pool whose cache lagged |
| PumpSafety.TradeProduct | storage/pump.go:305-317 | a trade never lowers the curve's product and never empties its meme side |
| PumpSafety.TradeBacked | storage/pump.go:197-317 | after a trade the WDOGE and memes at the curve's address are exactly the row's amounts, less the virtual WDOGE |
| PumpSafety.SalesCoveredIff | storage/pump.go:237-283 | every sale of memes that are not on the curve is within the real WDOGE if and only if `Amt0 * Amt1 > MemeMax * (DogeInit - 1)` |
| PumpSafety.SaleCovered | storage/pump.go:237-283 | while that holds no holder's sale exceeds the real WDOGE at the curve's address |
| Trades.DeployedCoveredIff | storage/pump.go:71-118 | right after a deploy every holder's sale is covered if and only if nothing was set aside for the creator |
| Trades.ReserveSaleFails | storage/pump.go:71-118 | a deploy with any reserve goes through, and the creator's sale of the reserve then fails, in any transaction at any height |
| PumpReceipts.SaleTx | storage/pump.go:197-303 | a sale as a transaction, with coins or not: exactly when it can be made, what the seller, the fee address, the inviter and the curve then have, and that nothing else changes |
| PumpReceipts.BuyTx | storage/pump.go:197-358 | a purchase as a transaction: exactly when it can be made, every balance afterwards, and from the graduation mark on the graduation with it; if it cannot, the coins stay as WDOGE |
| PumpReceipts.DeployTx | storage/pump.go:29-195 | a deploy as a transaction: exactly when it is accepted, who gets which part of the memes, and the first purchase |
| PumpReceipts.FinishPays | storage/pump.go:360-440 | what graduation changes at every address: two fees burned, everything else in the new pair, its liquidity locked at the curve's address |
| PumpReceipts.StrayTx | explorer/verifys.go:1405-1411 | a trade in neither token of the curve does nothing |
| Trades.SaleIff | storage/pump.go:241-303 | a sale goes through if and only if the seller has the memes, the fee parts are not rounded to nothing, and the WDOGE is there |
| Trades.BuyIff | storage/pump.go:197-240 | a purchase goes through if and only if the trader is not the fee address and has the amount, the fee parts are not rounded to nothing, and it buys at least one unit |
| PumpRuns.BlockCurves | storage/pump.go:197-358 | over any block paying users only, every curve stays backed, its product never falls, and past the closing mark it is frozen |
| PumpRuns.StagesCurves | storage/pump.go:197-358 | so over any number of blocks paying users only, without a fork between |
| PumpRuns.LaterSaleCovered | storage/pump.go:237-283 | once a curve's product is above the bound, any holder's sale is covered in every later block in which the curve is open, until a fork |
| PumpRuns.DeployedProduct | storage/pump.go:29-195 | a transaction that deploys a curve with reserve 0, with or without a first purchase, leaves it with the whole product |
| PumpRuns.DeployedSalesCovered | storage/pump.go:237-283 | so from that transaction on any holder's sale is covered in every later block, until a fork |
| Trades.GraduatesIff | storage/pump.go:341-346 | a trade on an open curve graduates it if and only if it is a purchase its trader can make that carries the curve to the graduation mark at once, under a new name |
| Trades.GetsStuckIff | explorer/verifys.go:1391-1393 | a trade leaves an open curve stuck if and only if it is a purchase its trader can make that lands between the closing mark and the graduation mark |
| PumpRuns.StuckForever | explorer/verifys.go:1391-1393 | a curve between the two marks never changes again, accepts no trade and keeps its WDOGE, through any number of blocks until a fork |
| Trades.TradeGraduates | storage/pump.go:341-346 | a purchase that can be made and reaches the mark graduates, leaves nothing at the curve's address, and closes the curve |
| Graduation.CreateIff | storage/swap_v2.go:17-111 | a create succeeds if and only if the names are new and the creator can pay both sides |
| Graduation.CreatePaid | storage/swap_v2.go:48-70 | what a create takes from its creator, and that it issues neither token |
| Graduation.GraduationSucceeds | storage/pump.go:360-440 | graduation always succeeds, burns exactly the two fees, and puts everything else into the new pool |
| Escrows.UnstakeIff | storage/consensus.go:53-104 | an unstake is accepted if and only if the record is active and the sender is its staker; then the whole amount moves to the staker and the record closes with the floor of amount times scaled logarithm of one more than its blocks |
| SingleOps.StakeTx | storage/consensus.go:14-50 | a stake is accepted if and only if the holder has the amount; then it is on record from this block and at the record's address |
| SingleOps.UnstakeTx | storage/consensus.go:53-104 | an unstake as a transaction: when it is accepted, the closed record with its score, and every balance afterwards |
| SingleOps.DeployTickTx | explorer/verifys.go:90-118 | a drc-20 deploy is accepted if and only if symbol, maximum and limit are in range and the symbol is new; then the tick exists with nothing issued |
| SingleOps.MintTx | explorer/verifys.go:120-147 | a mint is accepted if and only if each repetition is within the limit and all together within the maximum; then the holder gets them all |
| SingleOps.TransferTx | explorer/verifys.go:149-168 | a transfer is accepted if and only if it pays somebody else what the holder has |
| SingleOps.MemeTransferTx | explorer/verifys.go:1036-1072 | a meme-20 transfer is, besides, refused after a pump trade or v2 swap of the holder in the same block |
| SingleOps.DepositTx | explorer/verifys.go:410-415 | a deposit issues the holder exactly its coins |
| SingleOps.WithdrawTx | explorer/verifys.go:417-440 | a withdrawal takes back exactly its amount, from one whole coin on |
| Turns.StagesTurns | explorer/verifys.go:1279-1287 | over any number of blocks no holder completes two v2 swaps, or two pump trades, in one block |
| Turns.ForkTurns | explorer/fork.go:161-249 | nor does a fork bring a second one back |
| Escrows.BlockEscrows | storage/consensus.go:14-104 | over any block an active record stays backed and its escrow is drained only by closing it, by its amount |
| Escrows.SingleRelease | storage/consensus.go:53-143 | over any number of blocks without a fork between, a stake is released at most once and in full: after the block that closes it, it never opens again and its address never loses anything |
| Escrows.ForkEscrow | explorer/consensus.go:149-176 | a fork restores records and escrow together and moves the CARDI once |
| SupplyCap.BlockCaps | explorer/verifys.go:120-147 | over any block no user-deployed tick exceeds its maximum |
| SupplyCap.ForkCaps | explorer/drc20.go:185-219 | nor after a fork, from any state and to any height |
| Score.LnMonotone | storage/consensus.go:159-200 | the scaled logarithm never decreases, across powers of two as well |
| Score.LnBounds | storage/consensus.go:160-200 | it lies between `k ln 2` and `(k + 1) ln 2` for `k = floor(log2 n)` |
| Score.MantissaBelowLn2 | storage/consensus.go:165-197 | just below the next power of two the truncated series is still short of `ln 2` |
| Score.ScoreMonotone | storage/consensus.go:146-206 | a longer or larger stake never scores less |
| Score.LnDoubles | storage/consensus.go:160-200 | doubling `1 + blocks` adds exactly one `LN2_SCALED` |
| Score.SeriesAccuracy | storage/consensus.go:174-193 | the Q32 series is at most the exact `y + y^3/3 + y^5/5` and less than 5 units of 2^-32 below it |
| Score.LnAccuracy | storage/consensus.go:195-200 | the scaled logarithm is within 4 units of 1e-9 of the exact partial sum |
| Score.ScoreIs | storage/consensus.go:202-205 | the score is the floor of amount times scaled logarithm, and zero for nothing or no time |
| Score.ScoreOfPower | storage/consensus.go:146-206 | a stake of `2^k - 1` blocks scores the floor of amount times `k ln 2` |
| Score.ScoreAccuracy | storage/consensus.go:146-206 | the score is never above the exact amount times `k ln 2 + 2 (y + y^3/3 + y^5/5)`, and short of it by less than one unit and 4e-9 of the amount |
| Reorg.ReplayTracks | explorer/scanner.go:104-345 | the state after any chain can be rolled back to any of its blocks |
| Reorg.ForkReplay | explorer/fork.go:54-67 | a fork to `c` equals indexing up to `c` if and only if the state is restorable, for every chain and depth |
| Reorg.Rescan | explorer/scanner.go:127-332 | scanning a block again, after stopping anywhere in it, gives what scanning it once gives |
| Reorg.HalfBlock | explorer/scanner.go:104-345 | when a half-executed block is replaced by a sibling, scanning the sibling gives what scanning it alone gives if what was run is how the sibling's run begins, and only if everything recorded is also in the sibling |
| Reorg.SiblingIff | explorer/scanner.go:104-345 | for siblings without a common transaction: if and only if nothing of the replaced one was run |
| Reorg.ReplayAdvances | explorer/scanner.go:104-345 | the state after a chain is the state at any of its blocks, advanced by the blocks above it |
| Reorg.PlainForks | explorer/fork.go:74-159 | a chain without deploys, consensus operations and direct payments can always be forked back exactly |
| Scanner.NewExplorer | explorer/scanner.go:47-58 | an explorer over empty tables meets every condition the scanning theorems ask for |
| Scanner.Explorer.FindCommon | explorer/fork.go:39-52 | the search ends, at the highest stored height where the node has the same block, and fails only when there is none |
| Scanner.Explorer.ForkBack | explorer/fork.go:11-72 | it forks exactly there, and changes nothing when it fails or when the chain continues |
| Scanner.Explorer.ExecuteBlock | explorer/scanner.go:127-332 | the transaction loop computes the block |
| Scanner.Explorer.ScanBlock | explorer/scanner.go:127-343 | the block is executed and stored above the blocks it shares with the stored chain; a first block scanned again is indexed then |
| Scanner.Explorer.Iterate | explorer/scanner.go:104-345 | a successful iteration leaves the stored blocks equal to the node's chain, and the tables equal to indexing it whenever its fork could be exact |
| Scanner.Explorer.IteratePlain | explorer/scanner.go:104-345 | over plain blocks the tables stay equal to indexing the stored chain from scratch |
| Scanner.Explorer.Scan | explorer/scanner.go:88-347 | so over a whole scan with another view of the node at every iteration: it ends on the chain of the last view it saw, at most a hundred blocks ahead and not past the node's count, and unless an iteration failed or the views ran out it got there |
| Histories.EveryHistory | explorer/scanner.go:88-347 | in every history no fork gets stuck and every reached state keeps all invariants |
| Histories.EveryStretch | explorer/scanner.go:88-347 | in every history, over every stretch without a fork: no pool is diluted, every record keeps its stake until its one release, and, with payments to users only, no curve loses product or re-opens |
| Histories.ChainOnward | explorer/scanner.go:104-345 | the same between any two blocks of any chain |
| Histories.ForkReopens | explorer/pump.go:261-292 | a fork to below the trade that left a curve stuck gives it its earlier row back, and the next block accepts trades on it |
| Histories.FreshStart | explorer/scanner.go:60-86 | empty tables with a WDOGE row are a start all theorems accept |
| Limits.DeploySurvivesFork | explorer/drc20.go:105-136 | a reorganised deploy stays in force with its old maximum |
| Limits.StakeLostByFork | explorer/fork.go:161-249 | a reorganised and re-included stake is skipped: nothing is staked |
| Limits.GiftChangesPool | storage/swap.go:310-361 | after a direct payment to a pool whose cache agreed, a fork that undoes nothing succeeds and changes the pool's cached reserve by the payment |
| Limits.GiftSeenByFork | storage/swap.go:310-361 | a run of it: a cache of 10000 becomes 20000 by a fork to the height already reached |
| Limits.StaleSwapPays | storage/swap.go:213-252 | on that lagging cache one transaction of two swaps ends with 902 more of one token and no less of the other |
| Limits.HalfBlockStays | explorer/fork.go:11-52 | a deposit of a half-executed block still counts after a sibling took the block's place |
| Limits.FirstBuyEnds | storage/pump.go:197-358 | from empty tables a deploy and one purchase: the curve ends stuck or in its pool by where the purchase lands |
| Limits.StuckRun | explorer/verifys.go:1391-1393 | a purchase of 4e12 on a new curve leaves 3.96e12 WDOGE where no later block reaches them |
| Farms.StakeValid | storage/stake_v2.go:47-156 | a stake keeps the reward accounting |
| Farms.UnstakeValid | storage/stake_v2.go:158-222 | so does an unstake |
| Farms.ClaimValid | storage/stake_v2.go:224-284 | so does a claim, without any rounding loss |
| Farms.UpdatedValid | storage/stake_v2.go:286-334 | so does the accumulator update, which never decreases |
| Farms.RewardBound | storage/stake_v2.go:10-334 | over every run, paid plus pending plus accrued rewards are at most the emission plus one unit per stake and unstake, and the emission is at most the reward |
| Dues.UpdateAccrues | storage/stake_v2.go:286-334 | an update accrues exactly the floor of what the blocks since the last one emit for each unit staked, and nothing before that, after the end, or while nothing is staked |
| Dues.ClockStarts | storage/stake_v2.go:47-66 | the first stake starts the clock for the blocks the reward lasts |
| Dues.CreateIff | storage/stake_v2.go:10-45 | a farm is created if and only if it pays at least one block and its maker has the reward, which then is at its address |
| Dues.DueGrows | storage/stake_v2.go:286-334 | while stakes stand still each staker's due grows by the stake's share of the emission, to within one unit |
| Dues.StakeDues | storage/stake_v2.go:47-156 | a stake moves its amount, changes nobody's due and nobody else's row |
| Dues.UnstakeDues | storage/stake_v2.go:158-222 | an unstake moves its amount back, changes nobody's due and nobody else's row |
| Dues.ClaimDues | storage/stake_v2.go:224-284 | a claim is accepted if and only if something is due and there, pays exactly that, and leaves nothing due |
| Dues.RewardDelivered | storage/stake_v2.go:10-334 | over every run, paid plus claimable is at least the emission over the blocks in which somebody was staked, less the roundings |
| Dues.QuoteIs | storage/common.go:507-537 | what a client is shown at any height |
| Farms.QuoteAgreesIff | storage/common.go:507-537 | the quote is what a claim pays if and only if something newly accrued or nothing was pending; and exactly when a claim succeeds |
| Farms.QuoteDropsPending | storage/common.go:507-537 | a run from creation that reaches the excepted case: the quote is 0 where a claim pays 10 |
| Farms.UnstakeIff | storage/stake_v2.go:216-219 | an unlocked unstake goes through if and only if the farm's address holds the amount |
| Farms.UnstakeCovered | storage/stake_v2.go:216-219 | it always does, unless both tokens are one and rounding has paid out more than the reward |
| Farms.SharedTokenShort | storage/stake_v2.go:158-284 | a run from creation that reaches the excepted case: claims of 4 from a reward of 3, and the last staker cannot take out the stake |
| Farms.FarmTable.UpdatePool | storage/stake_v2.go:286-334 | the rows updated in place are the model's update |
| Farms.FarmTable.Stake | storage/stake_v2.go:47-156 | the rows updated in place are the model's stake |
| Farms.FarmTable.Unstake | storage/stake_v2.go:158-222 | the rows updated in place are the model's unstake, guard included |
| Farms.FarmTable.GetReward | storage/stake_v2.go:224-284 | the rows updated in place are the model's claim |
| Orders.TradeValid | storage/exchange.go:45-96 | a trade moves the payment to the owner and, out of the escrow, the floor of the listed price or all that is left; every other balance stays, and the escrow stays equal to what is left |
| Orders.CancelValid | storage/exchange.go:98-134 | a cancel moves exactly the part named to its sender |
| Orders.CreateIff | storage/exchange.go:9-43 | an order is accepted if and only if both tokens exist and its owner has what it offers, which then is in escrow |
| Orders.TradeIff | explorer/verifys.go:760-776 | a trade is accepted if and only if somebody else can pay for at least one unit of what is left |
| Orders.CancelIff | explorer/verifys.go:778-790 | a cancel is accepted from any sender if and only if that much is left |
| Orders.OrderSafe | storage/exchange.go:9-134 | from its creation, over any run the escrow is what is left, never negative, and nothing was sold below the listed price |
| Orders.OrderTable.Trade | storage/exchange.go:45-96 | the row and transfers in place are the model's trade |
| Orders.OrderTable.Cancel | storage/exchange.go:98-134 | the transfer and row in place are the model's cancel |
| Tables.TokenTable.Send | storage/common.go:42-113 | the transfer over rows, row creation included, is the ledger's transfer with its revert row |
| Tables.TokenTable.Issue | storage/common.go:115-182 | the mint over rows is the ledger's mint |
| Tables.TokenTable.Redeem | storage/common.go:184-248 | the burn over rows is the ledger's burn, and needs a row even to burn nothing |
| Tables.TokenTable.UndoAbove | explorer/meme20.go:165-199 | the undo loop over revert rows is the rewinding, and never lacks a row |
| Storage.DBClient.UpdateLiquidity | storage/swap.go:254-308 | one cached row becomes what the ledger says |
| Storage.DBClient.UpdateAllLiquidity | storage/swap_v2.go:435-527 | every cached row becomes what the ledger says |
| Storage.DBClient.SwapCreate | storage/swap.go:17-95 | the method runs exactly the create script, or fails where it fails |
| Storage.DBClient.SwapAdd | storage/swap.go:97-167 | the same for an add, with its guard |
| Storage.DBClient.SwapRemove | storage/swap.go:169-211 | the same for a remove, and what it hands out in WDOGE |
| Storage.DBClient.SwapExec | storage/swap.go:213-252 | the same for a swap |
| Storage.DBClient.PumpDeploy | storage/pump.go:29-195 | the same for a curve's deploy with its first purchase |
| Storage.DBClient.PumpTrade | storage/pump.go:197-358 | the same for a trade and the graduation it may trigger |
| Storage.DBClient.PumpFinish | storage/pump.go:360-440 | the same for graduation |
| Storage.DBClient.ConsensusStake | storage/consensus.go:14-50 | the same for a consensus stake |
| Storage.DBClient.ConsensusUnstake | storage/consensus.go:53-104 | the same for an unstake, score included |
| Storage.DBClient.PumpFork | explorer/pump.go:248-292 | the loop restores every curve and deletes the created tokens |
| Storage.DBClient.DeletePairs | explorer/swap_v2.go:239-268 | the loop deletes exactly the pairs opened above the height, with their tokens |
| Storage.DBClient.ConsensusFork | explorer/consensus.go:149-176 | the loop rewinds the records |
| Storage.DBClient.Fork | explorer/fork.go:74-159 | the phases in their order compute exactly the model's fork and leave tables that can be undone again |
| Storage.DBClient.ForkOrRollback | explorer/fork.go:54-65 | all of the fork or nothing of it, and the tables stay ready to be undone again |
| Chronicles.BlockChronicle | storage/common.go:97-110 | over any block no revert row is older than the token it names |
| Chronicles.ForkOrdered | explorer/fork.go:251-324 | nor after a fork, which leaves nothing written above its height |
| Chronicles.OrderedKeepsEarlyRows | explorer/fork.go:251-324 | so no revert row that a fork keeps names a token that the fork deletes |
| Storage.DBClient.ExecutePair | explorer/scanner.go:588-728 | deposits totalled and committed first, orders rolled back as one: exactly the model's pair transaction |
| Storage.DBClient.ExecutePump | explorer/scanner.go:927-1018 | the same for the pump |
| Storage.DBClient.Execute | explorer/scanner.go:127-332 | one transaction in place is one transaction of the model |

## Left out

- Input: RPC, JSON and script decoding, signature checks of holders, IPFS, configuration, routers and queries. Operations arrive decoded; a v1 order names its ticks already sorted; a transfer's address is one key, so comma-joined recipients are not split.
- SQL and gorm: a table is a map, a database transaction is all or nothing, an `UPDATE ... SELECT` is a recomputation. Storage errors other than a missing row do not happen. Error texts are not modelled.
- Zero rows: in the value model an address without a row and one with a zero row are the same; `Tables.dfy` tells them apart.
- Identifiers: reserve and escrow addresses are injective and never sign; pair and token ids are new (a taken id fails the create). A curve deployed under the id of an existing meme token is therefore not modelled.
- The v1 and v2 pair tables are one map keyed by version, and their create rows one log; the order between rows written by one create is the model's, not the source's.
- Swap.DepositFor: a v2 create with `doge` set always fails in the source, because the pair is looked up before it exists; the model follows that.
- A pair transaction of the model may mix v1 and v2 orders; the source keeps them in separate transactions.
- Invitations: who invited whom is a fixed table; invite rewards, their revert rows and `executeInvite` are not part of this model.
- Meme deploys by `memeDeploy`, files, NFTs, boxes, cross-chain tokens, stake-v1, order-v2 and the scheduled box deployment, with their fork phases. `exchangeFork` and `stakeV2Fork` do not undo faithfully (order reverts carry no block number; `stakeV2Fork` writes a `last_block` that was never stored), so limit orders and StakeV2 are modelled without reorganisations.
- StakeV2 is modelled at storage level with the create and unstake guards: `scan` does not dispatch it. The `lock_block` column its update names is not a column of the row and is not modelled.
- Floating point and clocks: decayed scores, price summaries, candles, `king_date`. Transaction counters carry no invariant and are not modelled. The bookkeeping rows of router deposits and withdrawals are not modelled.
- Scanner.Explorer.Iterate: the node is fixed during an iteration, and an iteration either fails before executing or completes. A node failing in the middle of a block is covered by Reorg.Rescan and by the `Again` event of Histories.EveryHistory; when the half-executed block is then replaced by a sibling with the same parent, `forkBack` does not notice, and the tables can differ from indexing the sibling alone (Limits.HalfBlockStays).
- Reorg.HalfBlock: one condition is sufficient and another necessary. Between them, when siblings share transactions in another order, it depends on whether the operations commute; Reorg.SiblingIff is exact for siblings that share none.
- Traders.StaleSwapsPaidFor: one way. Whether a first swap that is better than the ledger's price can be turned into a gain depends on the flooring of every later swap and on splitting it into amounts below 1000, which pay no fee; Traders.StaleProductIff is exact for the product, and Limits.StaleSwapPays shows a gain.
- Scanner.Explorer.ForkBack: error returns of the block table other than a missing row do not happen, and blocks below the first stored one are not on the node's chain.
- Scanner.Explorer.Scan: a restart of the process, which takes the highest stored block number as its height, is not modelled.
- Dues.RewardDelivered: the roundings it allows for are one unit for each stake and unstake, one for each staker, and at each update less than the total stake in units of 1e-8.
- Routing.SwapTx: PumpReceipts.BuyTx, PumpReceipts.DeployTx and this one assume the WDOGE row that the indexer starts with; without it no coin can come in (Routing.PairRouted).
- PumpReceipts.BuyTx: with PumpReceipts.SaleTx and PumpReceipts.DeployTx, stated where no direct payment has reached the curve's address, like PumpRuns.BlockCurves.
- PumpRuns.BlockCurves: stated without direct payments to a curve's address; with them a curve can graduate early and the equality becomes an inequality.
- Storage.DBClient.Fork: the revert logs stay in step with the rows under a condition that Chronicles.OrderedKeepsEarlyRows proves of every run; Storage.DBClient.ForkOrRollback states it without the condition.
