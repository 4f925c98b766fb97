# impl.trade perps: a verified model

The Anchor program `impl-perps` settles perpetual futures: users post collateral, trade
against a virtual constant-product AMM or against each other, pay funding, are liquidated,
and leave bad debt to an insurance fund. Two off-chain services work on the same orders: a
keeper that crosses resting orders, and a service that aggregates them into price levels.
This project models all three in Dafny 4.11 and proves what they keep.

## How it is built

1. **Values.** `Numbers`, `State`, `Curve`, `Margin`, `Funding`, `Controller` and
   `Instructions` say what each operation does to account values, with the widths, checked
   operations, rounding directions, wrapping casts and error codes of the Rust code, and the
   errors in its order. `Protocol` makes them one state machine: a `World` of users, markets
   and the insurance fund, and an `Instruction` with its oracle price and clock as data.
2. **Accounts in place.** `Accounts`, `Execution`, `Handlers` and `Program` are the same
   operations as the code performs them: objects whose fields and slot arrays are updated
   step by step, searches as loops, errors returned half way. Every method is proved to leave
   its accounts at exactly the value layer 1 gives for the values it started from, or to fail
   with the same error. `Program.AccountStore.Execute` loads accounts, runs a handler, and
   writes back only on success, which is the atomicity of a transaction.
3. **One relation.** `Relation.Does` says what every instruction does as a relation between
   two worlds, in plain arithmetic: roundings are inequalities, widths are ranges, searches are
   "the first that", scales are numbers. It shares the records of layer 1 and none of its
   functions. `TradeAgreement`, `OrderAgreement`, `FundingAgreement` and `Agreement` prove the
   two equivalent for every world and instruction (`Agreement.StepIff`), so it also states
   when an instruction is accepted; `FieldChecks`, `TradeReasons` and `Refusals` say
   with which error it is refused, and why.
4. **Theorems.** The remaining modules prove properties of single steps and of `Run`, the
   world after any sequence of instructions, failed ones included. `Keeper` and `Book` are
   the loops of the two services, linked to the same order state.

Statements about runs use ledgers (`Accumulated`): sums over the successful steps of a
history of what each step moved, read off the accounts before and after it. None of them
rests on `settled_pnl` as a total, because liquidations leave their funding out of it.

`AllWellSized` asks that order and trade sizes stay below 2^63, the largest size that the
cast `base_amount as i64` leaves unchanged (controller.rs:58-62). It is a condition on the
instruction alone. Without it the books break: `Oversized.OpenSoundIff`, `FillSoundIff` and
`MatchSoundIff` prove that an open trade, a fill and a peer match keep the world sound if and
only if the size they add is below 2^63, and `Oversized.OversizedOpenAccepted` and
`OversizedFillAccepted` exhibit histories in which it is not.

Where a promise of the code or its comments fails, the inputs on which it fails are written out
as histories (`Scenario`), and the theorem that gives its exact condition stands beside them.

## Model

| member | source | states |
|---|---|---|
| Numbers.CeilGalois | programs/impl-perps/src/math/safe.rs:47-55 | the rounded-up quotient is the least integer whose product with the divisor covers the dividend, both directions |
| Numbers.TruncBounds | programs/impl-perps/src/math/safe.rs:11-12 | signed division rounds toward zero: the remainder has the dividend's sign and is smaller than the divisor |
| Curve.SwapAccepts | programs/impl-perps/src/math/amm.rs:70-106 | a swap is rejected exactly for an empty size, an exhausted base reserve or a product past 128 bits; the two reserve subtractions cannot fail |
| Curve.SwapMovesAlongCurve | programs/impl-perps/src/math/amm.rs:78-105 | one swap keeps k <= k' < k + new base reserve, keeps both reserves positive, and moves the quote reserve against the base reserve |
| Curve.ReservePriceIff | programs/impl-perps/src/math/amm.rs:36-45 | the mark is r if and only if r * base <= quote * peg < (r + 1) * base with the product inside 128 bits; it fails, with MathOverflow, exactly for an empty base reserve, a product past 128 bits or a mark past 64 |
| Curve.SwapMovesMark | programs/impl-perps/src/math/amm.rs:35-54 | `reserve_price` of the reserves after a swap is on no other side of that of the reserves before than the trade's own: a buy never lowers it, a sell never raises it |
| Curve.BuyPriceBetweenMarks | programs/impl-perps/src/math/amm.rs:86-99 | a buyer's average price lies between the marks before and after, up to stated rounding terms on each side |
| Curve.SellPriceBetweenMarks | programs/impl-perps/src/math/amm.rs:86-99 | a seller's average price never exceeds the mark before, and misses the mark after by at most a stated rounding term |
| Curve.SellerNeverOverpaid | programs/impl-perps/src/math/amm.rs:67-69 | a seller never receives more than the exact curve pays |
| Curve.BuyerPaysCurveIff | programs/impl-perps/src/math/amm.rs:67-99 | with left = b - size and moved = ceil(q*size/left), both known before the trade: the buyer pays at least the exact curve price if and only if (moved*peg mod 1e9)*left <= (moved*left - q*size)*peg; the shortfall is below one quote unit |
| Curve.BuysPayCurveIff | programs/impl-perps/src/math/amm.rs:67-99 | every accepted buy on every positive reserves pays at least the exact curve price if and only if the peg fixed at market creation is a multiple of 1e9 |
| Curve.UnderpaidOnFreshReserves | programs/impl-perps/src/math/amm.rs:67-99 | at every other peg a buy of 2 from the balanced depth 6 pays less than the curve asks |
| Scenario.FreeBuyReached | programs/impl-perps/src/math/amm.rs:96-99 | a history of four accepted instructions ends with a funded account holding a position on a fresh market for which it paid nothing |
| Scenario.UnderpaidReached | programs/impl-perps/src/math/amm.rs:67-69 | for every peg that is no multiple of 1e9 (and fits), a history whose last trade opens a position for less than the curve asks |
| Curve.ChainIsTrade | programs/impl-perps/src/math/amm.rs:70-106 | any chain of accepted `calculate_swap` answers, each on the reserves the last one left, is the path of its sizes |
| Curve.SplitKeepsReserve | programs/impl-perps/src/math/amm.rs:86-94 | after any same-direction sequence of swaps the quote reserve is no lower than the curve asks from the start |
| Curve.SplitSwapsNeverHelp | programs/impl-perps/src/math/amm.rs:86-99 | a chain of n accepted swaps of one direction against the accepted swap of their sum: same base reserve, quote reserve no lower, n buys cost at least the single buy minus n-1 units, n sells never earn more than the single sell |
| Curve.SplittingNeverHelps | programs/impl-perps/src/math/amm.rs:86-99 | the same on exact paths, whether or not a product on the way passes 128 bits |
| Curve.RoundTripReserve | programs/impl-perps/src/math/amm.rs:86-94 | going to any base reserve and back returns the quote reserve to at least where it was, and at most a stated number of units above |
| TradeTerms.OpensAtPeg | programs/impl-perps/src/math/amm.rs:108-119 | a market opens with mark and both averages at the peg, unless depth times peg passes 128 bits |
| Margin.HealthExact | programs/impl-perps/src/math/margin.rs:43-71 | account health in exact arithmetic: no cast in it ever wraps |
| Health.GateIsUnderwater | programs/impl-perps/src/instructions/liquidate_perp.rs:85-98 | the liquidation gate passes if and only if exact total collateral is below the exact maintenance requirement |
| Health.LongThresholdIff | programs/impl-perps/src/instructions/liquidate_perp.rs:85-98 | at the liquidation gate, for every long whose collateral exceeds its cost: let through at a price means let through at every lower price, if and only if the maintenance ratio is at most 100% |
| Health.RisingPriceLiquidates | programs/impl-perps/src/instructions/initialize_market.rs:60-64 | a history on a market created with 200% maintenance: a funded long that is refused for liquidation at its entry price and accepted for it at a higher one |
| Health.LongLiquidatableBelow | programs/impl-perps/src/math/margin.rs:52-71 | a long liquidatable at a price is liquidatable at every lower price, through all truncations |
| Health.ShortLiquidatableAbove | programs/impl-perps/src/math/margin.rs:52-71 | a short liquidatable at a price is liquidatable at every higher price, whatever the ratio |
| Health.LongThreshold | programs/impl-perps/src/math/liquidation.rs:7-11 | a single price separates the liquidatable from the safe prices of a long |
| Health.ShortThreshold | programs/impl-perps/src/math/liquidation.rs:7-11 | a single price separates the safe from the liquidatable prices of a short |
| Health.MarginProtects | programs/impl-perps/src/instructions/liquidate_perp.rs:64-98 | an account at initial margin with funding settled cannot be liquidated: the answer is NotLiquidatable |
| Health.CheckedMeetsMargin | programs/impl-perps/src/controller.rs:118-126 | an open, opening fill, match (either side) or withdrawal that succeeds leaves its account at initial margin in the resulting world |
| Health.SafeFromLiquidation | programs/impl-perps/src/controller.rs:118-126 | after such a step nobody can liquidate the account at that price, whatever other users do, until its account, the market's funding or its ratios change |
| FundingLaws.PaymentAntisymmetric | programs/impl-perps/src/math/funding.rs:47-58 | payments of opposite positions cancel exactly |
| FundingLaws.SettlingAlongIsFair | programs/impl-perps/src/instructions/settle_funding.rs:31-54 | whenever and however often an account settles a fixed position, the cash it has paid is within one unit a settlement of what settling once would take |
| FundingLaws.NetFundingFollowsSkew | programs/impl-perps/src/math/funding.rs:47-58 | when all n holders of a market owe one accrual, their total payment is (sqrt_k - base reserve) times the accrual within n*(1e9-1)/1e9 units |
| FundingLaws.TwapInHull | programs/impl-perps/src/math/funding.rs:60-73 | an average never leaves the range of what it averages |
| FundingLaws.TwapWeights | programs/impl-perps/src/math/funding.rs:62-73 | the average weighs the new price by the part of the window that has passed: r * w <= old * (w - e) + new * e < (r + 1) * w |
| FundingLaws.DeltaFacts | programs/impl-perps/src/math/funding.rs:12-45 | the accrual of one crank is bounded by the clamp and has the sign of mark average minus index average |
| FundingLaws.RateBounds | programs/impl-perps/src/math/funding.rs:14-39 | the rate is the premium of the mark over the index for the period as part of a day of 86400 seconds, from below and from above up to rounding, unless the clamp of half a percent cuts it |
| FundingRuns.FundingDirectionIff | programs/impl-perps/src/instructions/initialize_market.rs:87-88 | every first crank of every market that creation accepts with a period accrues from the index toward the mark if and only if the period is not negative |
| FundingRuns.FullWindowDirection | programs/impl-perps/src/instructions/update_funding_rate.rs:40-75 | a crank after a full window never accrues in favour of longs when quote * peg >= price * base, and never in favour of shorts when quote * peg < (price + 1) * base: a condition on reserves, peg and index price alone |
| FundingRuns.NetLongsPay | programs/impl-perps/src/instructions/update_funding_rate.rs:40-75 | while the AMM's traders are net long and the index is at most the peg, a crank after a full window never pays longs |
| FundingRuns.ReversedFundingReached | programs/impl-perps/src/instructions/update_funding_rate.rs:64-71 | for every negative period a history creates the market and cranks it once: the mark average is above the index average and longs are paid |
| FundingRuns.FundingStaysBounded | programs/impl-perps/src/instructions/update_funding_rate.rs:46-79 | over any history both averages stay in the range of the peg and everything fed, and n cranks accrue at most n times the clamped accrual |
| FundingRuns.RateGuardNeverFires | programs/impl-perps/src/math/funding.rs:20-23 | fed positive prices, no crank of any reachable market is rejected for its oracle price |
| FundingRuns.CrankTwiceAccruesOnce | programs/impl-perps/src/instructions/update_funding_rate.rs:61-79 | a second crank at the same instant accrues nothing |
| FundingRuns.LateCrankAccruesOnePeriod | programs/impl-perps/src/instructions/update_funding_rate.rs:46-75 | once a full period has passed, the outcome of a crank does not depend on how late it comes |
| TradeTerms.SettledOwesNothing | programs/impl-perps/src/instructions/settle_funding.rs:35-54 | a position that has settled owes nothing until funding accrues again |
| TradeTerms.OpenOwes | programs/impl-perps/src/controller.rs:81-92 | an open before settling makes the added base owe the old accrual too: the payment due becomes trunc((base + signed)*accrued/1e9), and it is unchanged if and only if |signed*accrued| fits above the remainder of |base*accrued| below 1e9 |
| TradeTerms.MatchOwes | programs/impl-perps/src/controller.rs:281-300 | the same for either leg of a peer match |
| TradeTerms.CloseOwes | programs/impl-perps/src/controller.rs:205-219 | a close before settling forgives the accrual on what it removes: the payment due becomes trunc((base - removed)*accrued/1e9), unchanged if and only if |removed*accrued| is at most the remainder of |base*accrued| modulo 1e9 |
| Accounts.UserAccount.FindPosition | programs/impl-perps/src/state/user.rs:123-127 | the loop finds the first open slot of the market, or none |
| Accounts.UserAccount.GetOrCreatePosition | programs/impl-perps/src/state/user.rs:129-149 | existing slot, else first free slot reset for the market, else MaxPositionsReached; no other slot changes |
| Accounts.UserAccount.NextOrderId | programs/impl-perps/src/state/user.rs:151-155 | hands out the counter and advances it modulo 2^32 |
| Accounts.UserAccount.FindOrder | programs/impl-perps/src/instructions/cancel_order.rs:25-29 | the loop finds the first open order with the id, or fails with OrderNotFound |
| Accounts.UserAccount.FreeOrderSlot | programs/impl-perps/src/instructions/place_perp_order.rs:74-78 | the loop finds the first slot without an open order |
| Accounts.MarginCalculation.AddPosition | programs/impl-perps/src/math/margin.rs:52-71 | the three accumulators end at the health of the value layer, or the same error |
| Accounts.MarginCalculation.RequireInitial | programs/impl-perps/src/math/margin.rs:87-91 | passes exactly at or above initial margin |
| Execution.CheckInitialMargin | programs/impl-perps/src/controller.rs:118-126 | the margin gate behind every operation that adds risk |
| Execution.AddToPosition | programs/impl-perps/src/controller.rs:72-92 | finds or claims the slot, refuses the opposite side, and adds base and cost field by field as the value layer says |
| Execution.DecreasePosition | programs/impl-perps/src/controller.rs:205-219 | takes base and its share of the cost out in place, with the dust reset on a full close |
| Execution.RemoveOpenInterest | programs/impl-perps/src/controller.rs:228-243 | the saturating and checked totals of one side |
| Execution.ExecuteAmmOpen | programs/impl-perps/src/controller.rs:19-141 | user, market and quote end exactly at the value-level open of the old accounts, or with its error |
| Execution.ExecuteAmmClose | programs/impl-perps/src/controller.rs:148-258 | user, market and profit end exactly at the value-level close of the old accounts, or with its error |
| Execution.ApplyMatchLeg | programs/impl-perps/src/controller.rs:264-322 | one leg of a peer match on user and market, or its error |
| Execution.ExecuteMakerMatch | programs/impl-perps/src/controller.rs:328-407 | both legs and the net fee on three accounts, or the error of the first failing check |
| Bookkeeping.OpenFacts | programs/impl-perps/src/controller.rs:64-108 | an open moves exposure, cost basis, collateral, fees and open interest by one exact amount each, and keeps the curve and base conserved |
| Bookkeeping.CloseFacts | programs/impl-perps/src/controller.rs:192-244 | the same for a close: what leaves the cost basis is profit plus quote moved, what leaves the collateral is the fee less the profit |
| Bookkeeping.CostBasisShare | programs/impl-perps/src/controller.rs:193-196 | the share of the cost basis removed has its sign, is proportional to the base removed up to less than one unit, and is all of it on a full close |
| Outcomes.CloseProfit | programs/impl-perps/src/controller.rs:194-226 | read off the accounts of an accepted close: what left the entry is the closed fraction of it up to less than one unit, the reserves moved along the curve, and the profit is that entry plus the AMM's quote move times the peg over 1e9, rounded toward zero |
| Outcomes.LiquidationProfit | programs/impl-perps/src/instructions/liquidate_perp.rs:100-172 | the same for what a liquidation closes, with its size: what was asked for, or the whole position |
| Bookkeeping.DecreaseFacts | programs/impl-perps/src/controller.rs:205-219 | the reset of the cost basis on a full close changes nothing: it is already zero |
| Bookkeeping.RemoveOpenInterestFacts | programs/impl-perps/src/controller.rs:228-243 | the saturating subtraction does not saturate while the position is part of the open interest |
| Bookkeeping.TargetIsOnly | programs/impl-perps/src/controller.rs:72-80 | an opening trade writes either the only open slot of its market or a clean one |
| TradeTerms.OpenTerms | programs/impl-perps/src/controller.rs:43-116 | an open respects its price limit, pays exactly the rounded-up fee on the quote moved, stays under the open-interest cap and moves the base reserve by its size |
| TradeTerms.FillTerms | programs/impl-perps/src/instructions/fill_perp_order.rs:75-129 | an AMM fill of a limit order keeps to the order's own price, pays exactly the fee, and moves exactly what remains of an opening order, or the smaller of what remains and the position for a reduce-only one |
| TradeTerms.FillLeaves | programs/impl-perps/src/instructions/fill_perp_order.rs:101-122 | the filled slot stays open exactly when its order is reduce-only, something remains of it and the position is not closed; it then holds the order with the fill counted, otherwise it is empty; no other slot changes |
| TradeTerms.TriggerTerms | programs/impl-perps/src/instructions/trigger_order.rs:83-104 | a trigger closes the smaller of what remains of its order and the position; a limit trigger keeps to its price |
| TradeReasons.TriggerAnswers | programs/impl-perps/src/instructions/trigger_order.rs:67-104 | an open trigger order past the earlier gates is refused with TriggerConditionNotMet if and only if the price is strictly short of its trigger on its side; otherwise it is accepted exactly when there is a position, something remains, and the close of that size is accepted |
| TradeTerms.CloseTakes | programs/impl-perps/src/instructions/close_position.rs:65-83 | a close takes what was asked for, or the whole position when asked for nothing or too much, within its price limit |
| TradeTerms.CloseTerms | programs/impl-perps/src/controller.rs:180-245 | a close respects its limit, pays exactly its fee, credits exactly its profit and creates no debt |
| TradeTerms.MatchTerms | programs/impl-perps/src/controller.rs:339-381 | the taker pays exactly its fee, the maker gets exactly its rebate, the market keeps the difference, reserves stay, both open interests grow by the size, under the cap |
| Oversized.SignedBaseFaithful | programs/impl-perps/src/controller.rs:58-62 | the stored change of base is the trade's if and only if the size is below 2^63; above, its sign is reversed |
| Oversized.OpenSoundIff | programs/impl-perps/src/controller.rs:58-62 | an accepted open keeps the books sound if and only if its size is below 2^63 |
| Oversized.FillSoundIff | programs/impl-perps/src/instructions/fill_perp_order.rs:75-129 | whatever the sizes of resting orders, an accepted fill keeps the books and curves sound if and only if its order is reduce-only or what remains of it is below 2^63 |
| Oversized.MatchSoundIff | programs/impl-perps/src/controller.rs:264-322 | an accepted peer match keeps them sound if and only if the smaller of what remains of both orders is below 2^63 |
| Oversized.OversizedOpenAccepted | programs/impl-perps/src/controller.rs:58-62 | a history of four accepted instructions whose last, a buy of 2^63, is stored as a short; the world before it is sound and the one after is not |
| Oversized.OversizedFillAccepted | programs/impl-perps/src/instructions/fill_perp_order.rs:75-129 | the same through an order of 2^63 that is placed, rests, and is filled |
| Handlers.Deposit | programs/impl-perps/src/instructions/deposit_collateral.rs:37-44 | effects and errors of a deposit, with the wrapping cast |
| Handlers.Withdraw | programs/impl-perps/src/instructions/withdraw_collateral.rs:51-83 | effects and errors of a withdrawal behind the margin gate |
| Handlers.OpenTrade | programs/impl-perps/src/instructions/open_position.rs:48-78 | gates, then the open |
| Handlers.CloseTrade | programs/impl-perps/src/instructions/close_position.rs:64-83 | clamps the size, then the close |
| Handlers.Place | programs/impl-perps/src/instructions/place_perp_order.rs:48-94 | checks by order type, slot and id allocation, the resting order |
| Handlers.Cancel | programs/impl-perps/src/instructions/cancel_order.rs:23-30 | frees the slot of that order and no other |
| Handlers.Fill | programs/impl-perps/src/instructions/fill_perp_order.rs:36-131 | opening and reduce-only fills with the order left behind, or the error of the first failing check |
| Handlers.Match | programs/impl-perps/src/instructions/fill_perp_match.rs:42-110 | both accounts, both orders and the market after a peer match, or its error |
| Handlers.FillAndMaybeClear | programs/impl-perps/src/instructions/fill_perp_match.rs:132-137 | counts the fill in one slot and frees it once nothing remains |
| Handlers.Trigger | programs/impl-perps/src/instructions/trigger_order.rs:39-109 | the close and the consumed order, or its error |
| Handlers.UpdateFunding | programs/impl-perps/src/instructions/update_funding_rate.rs:33-79 | averages, accrual and timestamps of a crank, or its error |
| Handlers.Settle | programs/impl-perps/src/instructions/settle_funding.rs:27-55 | collateral, debt, checkpoint and settled profit after settlement |
| Handlers.LiquidatedClose | programs/impl-perps/src/instructions/liquidate_perp.rs:100-189 | partial close, fee, insurance, debt and totals in the order of the code |
| Handlers.Liquidate | programs/impl-perps/src/instructions/liquidate_perp.rs:46-189 | funding, health gate and close on user, market and fund, or its error |
| Handlers.Resolve | programs/impl-perps/src/instructions/resolve_perp_bankruptcy.rs:25-49 | draw from the fund against the debt |
| Handlers.InitMarket | programs/impl-perps/src/instructions/initialize_market.rs:51-94 | every field of a new market, or the error of the first failing check |
| Handlers.SetParams | programs/impl-perps/src/instructions/update_market_params.rs:36-52 | the fields an administrator may retune |
| Program.AccountStore.Execute | programs/impl-perps/src/lib.rs:22-148 | one transaction takes the stored accounts to the state machine's next world, and a failed one leaves all of them as they were |
| Program.AccountStore.ExecuteAll | programs/impl-perps/src/lib.rs:22-148 | any sequence of transactions ends in the world every theorem about runs speaks of |
| Program.AccountStore.RunMatch | programs/impl-perps/src/instructions/fill_perp_match.rs:47-51 | one account on both sides is refused; otherwise both accounts are written back |
| Steps.StepAccounted | programs/impl-perps/src/lib.rs:22-148 | every successful instruction keeps the world sound and moves wealth, cost bases and reserves by exactly what the ledgers record |
| Agreement.StepIff | programs/impl-perps/src/lib.rs:22-148 | an instruction is accepted and takes one world to another if and only if the relation `Relation.Does` holds of them: every check, width, rounding, size, price, fee and field of every instruction, in arithmetic alone |
| Agreement.OneOutcome | programs/impl-perps/src/lib.rs:22-148 | the relation admits at most one world after an instruction |
| Refusals.StepReasons | programs/impl-perps/src/lib.rs:22-148 | an instruction that is refused is refused with an error whose condition on the accounts holds: the first failed check, or the reason the trade itself fails |
| Acceptance.BusyMarketReached | programs/impl-perps/src/lib.rs:22-148 | a history under a positive open-interest cap in which a short, two resting orders, their match and a withdrawal are all accepted |
| FieldChecks.PlaceDecided | programs/impl-perps/src/instructions/place_perp_order.rs:48-78 | placing answers with the first of its checks that fails (pause, status, minimum size, order type, the prices its type needs, a free slot) and succeeds when none does |
| FieldChecks.ResolveDecided | programs/impl-perps/src/instructions/resolve_perp_bankruptcy.rs:25-49 | resolving is refused exactly for an account without debt or without the bankruptcy flag |
| FieldChecks.CreateDecided | programs/impl-perps/src/instructions/initialize_market.rs:51-94 | creating a market answers with the first of its checks that fails, widths included, and succeeds when none does |
| FieldChecks.RetuneDecided | programs/impl-perps/src/instructions/update_market_params.rs:36-52 | an update of the parameters is refused exactly for margin ratios that are zero or out of order or a funding period that is not positive |
| Frames.MarketFrame | programs/impl-perps/src/lib.rs:22-148 | an instruction changes no market it does not name, and trades write only reserves, totals and fees |
| Frames.UserFrame | programs/impl-perps/src/lib.rs:22-148 | an instruction changes no account it does not name |
| Runs.RunSound | programs/impl-perps/src/controller.rs:94-109 | in every reachable world slots are clean, each user has at most one open slot a market, totals equal the sums over positions, and the curve invariant holds |
| Runs.AggregatesAgree | programs/impl-perps/src/controller.rs:94-109 | base reserve + longs + shorts = sqrt_k; open interest of each side = AMM total = sum over all users' positions |
| Runs.OneSlotPerMarket | programs/impl-perps/src/state/user.rs:129-149 | two open slots of one user never share a market; closed slots hold no cost basis; open ones carry it with the right sign |
| Runs.QuoteConserved | programs/impl-perps/src/controller.rs:192-244 | collateral less debt, cost bases, insurance, fees, AMM intake and funding paid always add up to deposits less withdrawals, exactly |
| Runs.MarketBalanced | programs/impl-perps/src/controller.rs:192-227 | per market, open cost bases, realized profit and AMM intake always cancel |
| Runs.PotentialPaid | programs/impl-perps/src/math/amm.rs:86-99 | 1e9 times the AMM's intake covers its potential up to 1e9-1 for each buy, over any history |
| Runs.FlatMarketSolvent | programs/impl-perps/src/math/amm.rs:70-106 | once every position of a market is closed, after any history, traders' realized profit there is at most (1e9-1)/1e9 units for each AMM buy made |
| RoundTrip.OpenThenClose | programs/impl-perps/src/controller.rs:19-258 | opening flat and closing all on the reserves the open left: profit is at most zero and at least minus a bound (ceil(peg/1e9) for a long); collateral falls by exactly both fees and that loss |
| RoundTrip.RoundTripNeverProfits | programs/impl-perps/src/controller.rs:19-258 | the same across the whole state machine, with any instructions in between that neither name the account nor trade in the market |
| Breaker.StepReduces | programs/impl-perps/src/controller.rs:205-219 | every step that does not open, match or fill an opening order can only shrink a position, on its side, in base and in cost |
| Breaker.HaltedOnlyReduces | programs/impl-perps/src/state/market.rs:106-129 | while a market is not active or the protocol is paused, every accepted step is such a step |
| Breaker.BreakerHolds | programs/impl-perps/src/state/market.rs:106-129 | from a halt until the market is restored, over any history, nobody's position in it grows or flips and neither side's open interest rises |
| Gates.PauseBlocksExactly | programs/impl-perps/src/lib.rs:51-54 | the pause rejects exactly deposit, withdraw, open, place, fill, match and trigger; every other instruction does what it does unpaused |
| Gates.StatusBlocksExactly | programs/impl-perps/src/state/market.rs:31-32 | a market that is paused (or not yet active) rejects exactly open, place, fill, match and trigger on it, a reduce-only one exactly open, match and placing or filling an order that may add; every other instruction, close, liquidate, settle and withdraw included, does what it does while the market is active |
| Gates.CloseIgnoresStatus | programs/impl-perps/src/instructions/close_position.rs:48-86 | a close has the same outcome whatever the status of its market |
| Gates.ClosesWhileHalted | programs/impl-perps/src/state/market.rs:31-32 | a history that opens a position, pauses its market and pauses the protocol: in the world it reaches the owner closes the position, against the comment that all trading is halted |
| Breaker.ClosingRemovesEntry | programs/impl-perps/src/controller.rs:193-219 | over any mix of closes, trigger fills, reduce-only fills and liquidations, base and cost only shrink on their side, and what left the cost basis is exactly profit booked plus AMM intake |
| Breaker.FullyClosedRemovesAll | programs/impl-perps/src/controller.rs:193-219 | once the position is closed the removed total is exactly its entry cost |
| Liquidations.FeeNeverCreatesDebt | programs/impl-perps/src/instructions/liquidate_perp.rs:150-153 | the liquidation fee comes out of what is left: it never turns an account negative |
| Debt.LiquidationDebt | programs/impl-perps/src/instructions/liquidate_perp.rs:64-173 | a liquidation adds exactly the part of funding and loss the collateral does not cover, and pays the fund exactly the fee due |
| Debt.SettlementDebt | programs/impl-perps/src/instructions/settle_funding.rs:42-52 | settlement adds exactly the uncovered part of the payment |
| Debt.ResolveClearsOrEmpties | programs/impl-perps/src/instructions/resolve_perp_bankruptcy.rs:32-39 | debt and fund fall by one amount; the debt is cleared if and only if the fund covers it, else the fund is empty |
| Debt.DebtConserved | programs/impl-perps/src/instructions/resolve_perp_bankruptcy.rs:25-49 | over any history, debt = shortfalls - cleared and fund = liquidation fees - cleared |
| Debt.BankruptOwes | programs/impl-perps/src/instructions/liquidate_perp.rs:163-168 | in every reachable world a bankrupt account has bad debt |
| OrderLife.FillFillsOrder | programs/impl-perps/src/instructions/fill_perp_order.rs:75-129 | an AMM fill takes at most what remains of the order, moves the market's totals by that size, and keeps the order's terms or frees it |
| OrderLife.MatchFills | programs/impl-perps/src/instructions/fill_perp_match.rs:57-100 | both orders of a match fill by one size, both positions move by it, both cost bases by its value at the maker's price |
| OrderRuns.StepOrders | programs/impl-perps/src/instructions/fill_perp_match.rs:132-137 | every step places one order, fills one order at a fair price, frees orders, or leaves an account's orders alone |
| OrderRuns.CancelFrees | programs/impl-perps/src/instructions/cancel_order.rs:23-33 | a cancel empties the slot of the named order, leaves every other slot alone, and no open order with that id is left |
| OrderRuns.OpenOrdersSound | programs/impl-perps/src/instructions/place_perp_order.rs:74-94 | below 2^32 placements the counter is their number, open ids are distinct and below it, and every open order has something left |
| OrderFills.OrderNeverOverfilled | programs/impl-perps/src/instructions/fill_perp_match.rs:57-137 | for each order and any history: the base its fills moved never exceeds its amount and is what the open order records; its terms never change |
| OrderFills.PeerFillsRespectLimit | programs/impl-perps/src/instructions/fill_perp_match.rs:62-76 | over all peer fills a buy pays at most floor(limit * filled / 1e9), a sell falls short of its limit by less than one unit a fill |
| TradeTerms.TriggerFiresOnce | programs/impl-perps/src/instructions/trigger_order.rs:76-109 | a trigger fires only beyond its price and, sent again at any price, finds no order |
| Keeper.CollectResting | services/keeper/src/keeper.ts:126-143 | the nested loops gather, per market, in account order, exactly the entries of the open, limit, not reduce-only orders of an active market, however much of them is filled |
| Keeper.ListedIff | services/keeper/src/keeper.ts:125-143 | an entry is in a market's list if and only if it shows the id, price and side of an order of that account that is open, limit, not reduce-only and in that active market |
| Keeper.CrossBook | services/keeper/src/keeper.ts:149-179 | the two-index loop ends and submits what its recursive specification says: each order at most once, only crossing orders of different owners, every bid it passed used, every ask it passed used or owned by an earlier bidder, and past its end no remaining bid crosses any remaining ask |
| Keeper.OwnershipIff | services/keeper/src/keeper.ts:147-179 | for fixed owners and sides: the loop leaves no crossing pair of different owners at any prices and with any tie order, if and only if nobody rests on both sides while somebody else bids |
| Keeper.MatchMarket | services/keeper/src/keeper.ts:144-180 | with any tie order in the sorts: what is submitted is the loop's answer on some sorted sides, submissions are sound, a crossing pair stays unmatched only if the ask's owner also bids, and none does unless somebody rests on both sides while somebody else bids |
| Keeper.MatchingPass | services/keeper/src/keeper.ts:122-180 | for every market of a pass, on users and markets alone: there is a submission list exactly where an order rests; what is submitted are crossing resting orders of different owners; and unless somebody rests on both sides while somebody else bids, of any two that cross one is submitted |
| Keeper.SkippedAskLeavesCross | services/keeper/src/keeper.ts:155-158 | a book in which skipping an own ask leaves a crossing pair unmatched |
| Keeper.SubmittedPassesChecks | programs/impl-perps/src/instructions/fill_perp_match.rs:47-76 | everything submitted meets the on-chain pause, status, order, opposite-side, crossing, size and self-match checks on the snapshot |
| Keeper.PassSoundOnRuns | programs/impl-perps/src/instructions/fill_perp_match.rs:47-76 | the same on every reachable unpaused world with fewer than 2^32 placements a user |
| Book.BuildSides | services/dlob/src/book.ts:22-42 | the nested maps hold, at every market and price, exactly the remaining size of the open limit orders there, and no empty level |
| Book.BuildBooks | services/dlob/src/book.ts:19-54 | one book for exactly the markets with resting size; its levels are strictly sorted, non-empty and exact, every order with something left shows at its price, and every level is backed by such an order |
| Book.ShownAlone | services/dlob/src/book.ts:22-42 | the level of an order that rests alone at its price is exactly what remains of it |
| Book.LevelsExact | services/dlob/src/book.ts:57-62 | sorting a side gives one level for each price and no other, strictly ordered |
| Book.BookIsUnique | services/dlob/src/book.ts:19-62 | the levels are determined by the orders: accounts in any other order give the same lists |
| Book.MatchRemovesDepth | services/dlob/src/book.ts:25-42 | a peer match of size b removes exactly b at the taker's price on one side and b at the maker's on the other, and no other depth changes; b is the base both positions move by |

## Where code and comments differ

The model follows the code.

- `state/market.rs:31-32` and `lib.rs:51` say a pause halts all trading and all user-facing
  position changes. `close_position`, `liquidate_perp` and `settle_funding` look at neither
  flag (`Gates.PauseBlocksExactly`, `Gates.StatusBlocksExactly`, `Gates.ClosesWhileHalted`).
- `math/amm.rs:67-69` says rounding is never in the user's favour. That holds for sellers;
  for buyers it holds exactly when the peg is a multiple of 1e9 (`Curve.BuysPayCurveIff`), which
  no instruction checks, and fails in `Scenario.FreeBuyReached`.
- `oracle.rs:121-124` checks that a price is positive before it is scaled to six decimals,
  which can round it to zero. The model therefore lets an instruction carry price zero.
- `update_market_params.rs:42` rejects a funding period that is not positive, and
  `initialize_market.rs:87` accepts one. `FundingRuns.FundingDirectionIff` says what depends
  on it.
- The maintenance ratio is never capped at 100%. `Health.LongThresholdIff` says what depends on it.

## Left out

- Oracle accounts: owner, feed, staleness and confidence checks. A validated price is data of
  the instruction, any 64-bit value.
- Anchor constraints, PDAs, signers and authorities; who may send an instruction is not modelled.
- Token transfers: deposits and withdrawals move ledgers, not a vault account.
- Events and logs, except the casts in `TradeRecord` that can reject a trade.
- Overflow panics (negating the smallest i64) are errors like any other: both revert.
- Account sizes, rent, compute limits and the clock's monotonicity.
- `initialize_state` and mock-oracle instructions: the starting configuration is a parameter.
- `approx_liquidation_price`, `free_collateral`, `meets_maintenance`: used by no instruction.
- packages/sdk, indexer, gateway, faucet, scripts and the web app.
- The keeper's funding, liquidation, trigger and fill scans, its RPC calls, retries and interval loop.
- `ts` of a book snapshot, and the decimal strings its prices and sizes are printed as.
- In-place methods say nothing about the accounts of a failed instruction; `Program` discards them.
- Aggregates and run theorems cover a user population named by position, with one account an owner.
- FundingLaws.SettlingAlongIsFair: speaks of one position of fixed base; opens and closes in between change the base without settling (controller.rs:81-92); `TradeTerms.OpenOwes`, `MatchOwes` and `CloseOwes` say by how much that changes what is owed, and the funding ledger of `Runs.QuoteConserved` covers it exactly.
- Health.SafeFromLiquidation: holds per market, because the program checks one position at a time.
