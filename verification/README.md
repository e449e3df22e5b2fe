# Conditional-token exchange

A model of the conditional-token exchange in Dafny, with proofs of what it keeps.

Markets trade claims on an event: for every collateral (a quote currency and up to three issuer
legs) a complete set of one YES and one NO claim is backed by one unit of that collateral. Owners
keep pool credit (one account per mint and owner, shared by all markets) and claims (per market).
Orders bid or ask on one branch, funded by pool credit or by claims; a placement settles a taker
against up to eight makers in one instruction.

## How it is laid out

* **Arithmetic.** `Exact`, `Rules` (quoting, fees, caps, payouts, fills, races, issuer multipliers),
  `Conversion` (what the multiplier bits denote, the band, listing checks, reservations), `Client`
  (the client's own arithmetic).
* **One market.** `Sums`, `State` (records and the elementary ledger moves), `Settlement` (one fill),
  `InFlight` (books between the steps of an instruction), `Matching` (review of a plan and the queue of fills).
* **The deployment.** `Chain` (pools, credit accounts, traders, markets, and the invariant `Inv`),
  `Exchange`, `Placing`, `Completion` (a placement), `Positions`, `Releases`, `Custody`, `Pools`,
  `Governance`, `Protocol` (27 kinds of step, runs, and the invariant over runs).
* **Whole runs.** `Aging` (identities are used once), `Races` (the ring of recent placements against the
  full history), `Uncrossed` (what the race check means for resting orders), `Concurrency` (a plan against a
  book that moved on), `Accounts` (accounts outlive what needs them), `Outcomes` (lifecycle, settings and what
  redemption pays), `Authority` (who may take whose order away), `Owners` (nobody loses what it did not spend).
* **What a success was allowed to do.** `Rightful` (when a placement happens, with whom it trades and how it
  ends, in the terms of the request, the clock and the orders).
* **What adds up.** `Exposure` (a book's open notional is that of its orders), `Fees` (fees and carries account
  for every fill).
* **The handlers, field by field.** `Fills` and `Guards` (why each check of a handler passes),
  `Session` (a class holding the account images of one instruction), `Opening` (the guards a placement
  opens with), `PlaceHandler`, `PositionHandler`,
  `ReleaseHandler`, and `Program` (a class holding every account; its methods are the instructions).
* **Around the program.** `Reconciliation` (the indexer's ledger proof), `Redeeming` (redemption plans),
  `Planner`, `Matchmaking`, `Priority`, `PlanLimits`, `Instruction`, `Acceptance` (the order planner and its
  agreement with the program), `Quoter`, `MarketMaker` (quote ladders), `Invocations` (log decoding),
  `Transfers` (transfer fees), `Decimals` (decimal text).

Two levels describe each instruction. A *specification* says when it succeeds and what state it leaves
(`Admissible` and `Placed` for a placement, and their counterparts). It speaks of the request and of the
accounts presented; the runtime guards of the code (`conserved`, `check_collateral`, `check_delta`,
empty-wallet checks, checked subtraction) do not occur in it. The *handler* is a method that updates fields in
the order the code does, with every guard and checked operation in place. Its contract says that it
succeeds exactly when the specification does and leaves exactly that state: so in every state that
satisfies `Inv`, hence in every state of every run, no guard fires.

What `Acceptance` asks is split in three: that the planner's input is the book, its fees and its legs' live
state (`Sees`), that the taker itself may place (`MayPlace`: in time, in an open market, with accounts, a
fresh order, a valid nonce and the funds), and that the instruction is the one built from the plan
(`Setting`). Everything about the makers then follows from the invariants of runs.

Instructions that fail are rolled back by the runtime: a handler that fails leaves the accounts as they
were. Time is an input that never decreases. Keys are abstract identities; a program-derived address
is the tuple it is derived from. Amounts are unbounded integers with the code's 64- and 128-bit checks
written out. Environment steps are donations to vaults, burns and donations of claims by their holders,
and time.

## Findings

One reading of what the planner promises holds only in part; it has its exact form.

* A resting remainder is meant not to rest across the book. When something is left to rest, exactly the
  eligible candidates whose reservation covers all they have left are filled, in full, and nothing is taken of any
  other (`Priority.TakenExactlyInFull`); the remainder is the order's quantity less theirs (`Priority.RemainderIs`).
  An ask whose reservation covers only part is passed over for the amount at its turn, and the smaller
  remainder may rest across it: `PlanLimits.RemainderMayCrossAPassedMaker` gives a book, of a leg that passes
  its listing checks. The remainder crosses nobody exactly when no eligible candidate fails to deliver
  all it has left yet delivers what the remainder asks of it (`Priority.RemainderCrossesNobody`), which is known
  before the order is planned.

A plan's total quote needs no bound of its own: the makers' offers are part of the market's open notional,
which the exposure caps keep in 64 bits, so whatever `planOrder` plans on a market's book is accepted by
`parseAtomicPlan` (`Acceptance.PlanReads`) and its instruction can be built (`Acceptance.PlanIsBuilt`).

## Model

| member | source | states |
|---|---|---|
| Rules.QuoteDown | crates/protocol-core/src/lib.rs:26-33 | floor of quantity times price over 10^18 for every 64-bit quantity and 128-bit price; fails exactly when that exceeds 64 bits, no intermediate leaving 128 bits |
| Rules.QuoteUp | crates/protocol-core/src/lib.rs:35-40 | the same rounded up |
| Client.QuotesAgree | packages/solana-client/src/protocol.ts:452-459 | the client's direct quote and the program's agree in value and in failure |
| Client.DecodingsAgree | packages/solana-client/src/protocol.ts:64-73 | the client's decoder, by shifts and masks, refuses exactly what the program refuses, bits outside 64 among it, and decodes the rest to the same mantissa and shift |
| Client.ConversionsAgree | packages/solana-client/src/protocol.ts:85-95 | with that decoder, the client's share conversion and the program's agree in value and in failure |
| Client.BandsAgree | packages/solana-client/src/protocol.ts:96-100 | so do their dividend bands |
| Rules.Fee | crates/protocol-core/src/lib.rs:42-51 | charge and carry account for gross times rate exactly; the carry stays below 10000 and the charge never exceeds the gross |
| Rules.FeesAreExact | crates/protocol-core/src/lib.rs:42-51 | over any sequence of charges, 10000 times the total charged plus the carry is the weighted gross plus the first carry |
| Rules.FeesIgnoreSplitting | crates/protocol-core/src/lib.rs:42-51 | at one rate the total charge depends on the volume only, not on how it was split |
| Rules.ValidCapsAdmitAnOrder | crates/protocol-core/src/lib.rs:65-90 | validated caps admit one step at the least price worth the minimum notional, and no lower price |
| Rules.NoFillRoundsToZero | crates/protocol-core/src/lib.rs:76-78 | under validated caps no admissible fill is worth nothing |
| Rules.FillSucceeds | crates/protocol-core/src/lib.rs:191-233 | a well-shaped fill fails only if it is worth no quote unit; reductions, improvement and the new reservation are exact |
| Rules.ReservationCoversFill | crates/protocol-core/src/lib.rs:213-220 | what a rounded-up reservation releases pays the fill at any better price |
| Rules.Redemption | crates/protocol-core/src/lib.rs:157-166 | pays exactly the weighted claims over the denominator, and refuses exactly the fractional ones |
| Rules.ClaimBacking | crates/protocol-core/src/lib.rs:168-180 | the worse outcome before resolution, the payout rounded up after it |
| Rules.RaceFree | crates/protocol-core/src/lib.rs:274-292 | accepts exactly when the range fits the window and no entry of it is an ask at or below a bid's price, or a bid at or above an ask's |
| Conversion.DecodingIsExact | crates/protocol-core/src/lib.rs:310-322 | mantissa over 2^shift is the number the binary64 bits denote (section 3.4 of IEEE 754-2008) |
| Conversion.RawIsExact | crates/protocol-core/src/lib.rs:326-338 | share conversion is that exact quotient rounded once, down or up |
| Conversion.BandIsExact | crates/protocol-core/src/lib.rs:341-350 | the band comparison is 4/5 to 5/4 of the two numbers the bits denote |
| Conversion.InBandConverts | programs/conditional-stocks/src/governance.rs:244-253 | after the listing check every admissible quantity converts at every multiplier of the band, both roundings |
| Conversion.InBandDelivers | programs/conditional-stocks/src/governance.rs:254-263 | and every whole number of steps delivers at least one raw unit |
| Conversion.ReservationCoversDeliveries | programs/conditional-stocks/src/exchange.rs:662-667 | a reservation rounded up once covers any sequence of rounded-down deliveries at multipliers no lower than its own |
| Exposure.ExposureIsOrders | programs/conditional-stocks/src/exchange.rs:612-623 | a market's open notional is the sum of its orders', and 64 bits hold it |
| Settlement.SettleMovesLiability | programs/conditional-stocks/src/exchange.rs:688-741 | a fill moves no underlying liability and every claim liability by exactly what it mints |
| Settlement.SettleKeepsBooks | programs/conditional-stocks/src/exchange.rs:641-760 | a fill keeps sums, order shapes, signs, backing in every outcome and custody of every claim, self-trades and all funding combinations included |
| InFlight.ReserveKeeps | programs/conditional-stocks/src/exchange.rs:611-639 | opening an order rearranges what its owner is owed, no liability moves |
| InFlight.ReleaseKeeps | programs/conditional-stocks/src/exchange.rs:139-151 | releasing an order returns its whole reservation, no liability moves |
| InFlight.MintKeeps | programs/conditional-stocks/src/exchange.rs:810-833 | minting what is owed settles the debt and cannot overflow while the outcome is open |
| InFlight.FlushDrains | programs/conditional-stocks/src/pool.rs:466-477 | flushing every frame leaves no pool credit in any wallet |
| Matching.SettleAllKeeps | programs/conditional-stocks/src/exchange.rs:641-774 | the whole settlement loop stays settleable and keeps the books, whatever the list of makers |
| Matching.SettleAllFillsMakers | programs/conditional-stocks/src/exchange.rs:744-760 | each queued maker fills exactly its quantity, once; no other maker is touched |
| Matching.SettleAllFillsTaker | programs/conditional-stocks/src/exchange.rs:744-760 | the taker fills the total |
| Chain.RoundTripConserves | programs/conditional-stocks/src/pool.rs:454-477 | credit loaded into a market and flushed out of it is neither created nor lost, mint by mint |
| Placing.HydratedKeeps | programs/conditional-stocks/src/pool.rs:454-465 | loaded books are sound and no collateral's demand outgrows its pool |
| Placing.OpenedQueues | programs/conditional-stocks/src/exchange.rs:493-602 | what the pre-pass keeps meets every check of the settlement loop |
| Completion.PlaceKeepsInv | programs/conditional-stocks/src/exchange.rs:223-844 | every admissible placement keeps the global invariant |
| Completion.PlacementFills | programs/conditional-stocks/src/exchange.rs:641-774 | each surviving maker fills exactly its reviewed quantity, the taker their total, no other order changes |
| Rightful.PlacesInTime | programs/conditional-stocks/src/exchange.rs:236-443 | a placement happens only while its market trades, before its deadline and expiry, at the rates in force, with a valid nonce, a fresh order and a size and price the caps admit |
| Rightful.LegMayOpen | programs/conditional-stocks/src/pool.rs:355-406 | a leg may be touched exactly when it is listed, active and set up, neither paused nor frozen, and its live multiplier is between 4/5 and 5/4 of the listing's, as numbers |
| Rightful.TouchesOpenLegs | programs/conditional-stocks/src/exchange.rs:333-345 | so every leg a placement touches is |
| Rightful.ReservesExactly | programs/conditional-stocks/src/exchange.rs:603-611 | a bid sets aside its value at its limit rounded up, an ask what its quantity converts to at the live multiplier rounded up once, and its owner had it |
| Rightful.TradesAreRightful | programs/conditional-stocks/src/exchange.rs:493-687 | every trade is with a live, unexpired, authorized maker on the other side of the branch that the plan could have seen, at the maker's price within the taker's limit, delivering the seller's leg, which the buyer accepts, at its live conversion, each party at its role's rate |
| Rightful.TakerEnds | programs/conditional-stocks/src/exchange.rs:744-777 | the taker ends filled, or open for the rest if it may rest, or cancelled for the rest if it may not; never below the plan's least fill or above its own quantity |
| Fees.PlacementCharges | programs/conditional-stocks/src/exchange.rs:641-774 | over both sides of all fills of a placement, 10000 times the fees charged plus what the orders carry grows by exactly the filled gross at its rates |
| Positions.SplitKeepsInv | programs/conditional-stocks/src/custody.rs:466-494 | a split keeps the invariant |
| Positions.OpenSplitFits | programs/conditional-stocks/src/custody.rs:466-494 | while the outcome is open, whoever holds the credit can split it: no mint overflows |
| Positions.MergeKeepsInv | programs/conditional-stocks/src/custody.rs:496-523 | a merge in any market state never runs out of backing and keeps the invariant |
| Positions.RedeemKeepsInv | programs/conditional-stocks/src/custody.rs:525-568 | a redemption at any of the three payouts never runs out of backing and keeps the invariant |
| Releases.ProcessKeepsInv | programs/conditional-stocks/src/maintenance.rs:50-184 | cancelling or retiring any batch keeps the invariant: reservations return in full |
| Custody.DepositKeepsInv | programs/conditional-stocks/src/custody.rs:124-176 | a claim deposit keeps the invariant |
| Custody.WithdrawKeepsInv | programs/conditional-stocks/src/custody.rs:202-272 | the vault has the tokens of every wallet balance, and a withdrawal keeps the invariant |
| Custody.TransferKeepsInv | programs/conditional-stocks/src/custody.rs:662-675 | a credit transfer keeps the invariant |
| Custody.ClaimFeesKeepsInv | programs/conditional-stocks/src/custody.rs:689-704 | a fee claim keeps the invariant |
| Custody.ShiftKeepsInv | programs/conditional-stocks/src/invariants.rs:99-137 | external burns and unsolicited transfers of claims leave backing and custody covered |
| Pools.DepositPoolKeepsInv | programs/conditional-stocks/src/pool.rs:281-305 | a pool deposit credits what was received and keeps the invariant |
| Pools.WithdrawPoolKeepsInv | programs/conditional-stocks/src/pool.rs:254-305 | liability and vault both hold what any owner may withdraw |
| Governance.CreationIs | programs/conditional-stocks/src/governance.rs:132-190 | a new market is scheduled, holds and owes nothing, and its caps admit one step at the least price |
| Governance.AddBaseKeepsInv | programs/conditional-stocks/src/governance.rs:216-288 | listing a leg keeps the invariant |
| Governance.ListingAddsALeg | programs/conditional-stocks/src/governance.rs:216-288 | a listing appends one active leg of a mint the market did not have, at its live multiplier and ten to the difference of the decimals, and changes nothing else |
| Governance.SetBaseKeepsInv | programs/conditional-stocks/src/governance.rs:302-325 | switching a leg keeps the invariant |
| Governance.SwitchingIsExact | programs/conditional-stocks/src/governance.rs:302-325 | switching changes whether that leg trades and nothing else |
| Governance.LifecycleKeepsInv | programs/conditional-stocks/src/governance.rs:336-398 | every lifecycle transition keeps the invariant |
| Governance.ResolveKeepsInv | programs/conditional-stocks/src/governance.rs:436-474 | backing of the worse outcome covers whichever of the three payouts is announced; what it then pays is in the rows of `Outcomes` |
| Protocol.StepKeepsInv | programs/conditional-stocks/src/pool.rs:479-497 | every instruction and environment step keeps: pool liabilities as sums over owners and markets, market counters as sums over records, orders well formed, exposure within caps, backing, custody, no underlying in wallets |
| Protocol.RunKeepsInv | services/solana-indexer/src/custody.ts:49-116 | so does every finite run from an empty deployment |
| Aging.StepAges | programs/conditional-stocks/src/exchange.rs:18-32 | nonces and clocks only grow, closed markets stay closed, orders only shrink, only spent identities are closed |
| Aging.OpenedAtMostOnce | programs/conditional-stocks/src/maintenance.rs:186-199 | over a whole run no order identity is opened twice, retired or not |
| Outcomes.OutcomeIsFinal | programs/conditional-stocks/src/governance.rs:336-474 | over any stretch of any run a market only moves on, from scheduled to open, frozen, awaiting, redeemable and archived, and a known outcome never changes |
| Outcomes.OpensInItsWindow | programs/conditional-stocks/src/governance.rs:346-356 | it opens only when scheduled, set up and within its trading window, stops trading by freezing, and becomes redeemable only by an announcement |
| Outcomes.StateChangesHaveCauses | programs/conditional-stocks/src/governance.rs:336-398 | no state changes but by an announcement, a commitment, the opening, or, past the cutoff, anybody's freeze |
| Outcomes.MarketsMoveOn | programs/conditional-stocks/src/governance.rs:357-398 | none is stuck: anybody can freeze an open market past its cutoff, and from there a commitment and an announcement resolve it |
| Outcomes.SettingsStep | programs/conditional-stocks/src/governance.rs:35-108 | the rates and the pause are what was last set, and an owner's least nonce what the owner last raised it to; no other instruction moves them |
| Outcomes.RedemptionPaysTheOutcome | programs/conditional-stocks/src/custody.rs:525-568 | whatever happens between an announcement and a redemption in a run, YES claims are paid one for one if YES was announced, NO claims if NO was, half of both if the market was voided, into the owner's credit |
| Outcomes.OutcomePays | programs/conditional-stocks/src/custody.rs:525-568 | those amounts, and a voided market refuses exactly odd totals |
| Outcomes.HoldersCanRedeem | programs/conditional-stocks/src/custody.rs:525-568 | whoever holds claims of an announced outcome can redeem them |
| Authority.CancelNeedsAuthority | programs/conditional-stocks/src/exchange.rs:52-99 | an order is cancelled by its owner, by a grant, or by anyone once its market is not open, it has expired, its nonce is invalidated, or it delivers an inactive leg |
| Authority.StrangersMayClear | programs/conditional-stocks/src/exchange.rs:52-99 | in exactly those cases anyone can |
| Authority.OwnerCanAlwaysCancel | programs/conditional-stocks/src/exchange.rs:52-137 | at any point of any run the owner of an open order can cancel it with the account its reservation returns to |
| Authority.BatchNeedsAuthority | programs/conditional-stocks/src/maintenance.rs:50-105 | a batch is its owner's or cancels only what its actor was granted; retiring is the owner's alone, of orders that can never open again |
| Authority.StrangersProcessNothing | programs/conditional-stocks/src/maintenance.rs:50-105 | without grants a stranger processes nobody's orders |
| Authority.OwnerCanAlwaysProcess | programs/conditional-stocks/src/maintenance.rs:50-184 | at any point of any run an owner can cancel any of its orders together |
| Authority.OwnerCanRetire | programs/conditional-stocks/src/maintenance.rs:106-184 | and retire them once the market is over for good or their bound nonces are invalidated |
| Owners.OnlyOwnersSpend | programs/conditional-stocks/src/exchange.rs:223-844 | over any stretch of any run an owner that withdraws, transfers, converts and places nothing loses no pool credit and no claim, whatever everyone else does |
| Owners.StepSpares | programs/conditional-stocks/src/pool.rs:454-477 | no instruction takes credit or claims from an owner that did not issue it |
| Owners.CancelReturns | programs/conditional-stocks/src/exchange.rs:100-163 | a cancelled order's whole reservation is its owner's again, as pool credit or as claims, whichever funded it |
| Races.RingRefinesHistory | programs/conditional-stocks/src/exchange.rs:778-805 | in every reachable state the ring holds exactly the last sixteen placements of the run's history, branch by branch |
| Races.TicksCompare | programs/conditional-stocks/src/exchange.rs:781-784 | comparing ticks is comparing prices |
| Races.RaceCheckIsExact | crates/protocol-core/src/lib.rs:268-292 | a resting order passes exactly when its plan is at most sixteen placements old and nothing in the full history since then rests at or across its price, prices compared directly |
| Uncrossed.RestsUncrossed | programs/conditional-stocks/src/exchange.rs:778-805 | in every run, after a placement that leaves its order open, every open order of the branch on the other side that its plan could not have seen is priced strictly out of its reach |
| Concurrency.ActivityNeverBreaksAPlan | programs/conditional-stocks/src/exchange.rs:493-602 | at any later point of any run, once the checks on the request itself pass, a well-formed plan is refused only for its total, funds or sequence; makers gone stale are skipped or capped |
| Concurrency.ImmediateOrCancelSucceeds | programs/conditional-stocks/src/exchange.rs:775-777 | an immediate-or-cancel placement then succeeds exactly when worthwhile and within the exposure caps |
| Accounts.RunKeepsHosted | programs/conditional-stocks/src/pool.rs:423-453 | in every run the accounts an open order needs to be paid and refunded are there |
| Fills.FillComputes | programs/conditional-stocks/src/exchange.rs:653-687 | for a queued maker every checked computation of the loop succeeds with the settled amounts |
| Fills.FillHasRoom | programs/conditional-stocks/src/exchange.rs:688-720 | no subtraction of a fill can underflow and no addition overflow |
| Guards.BackedPasses | programs/conditional-stocks/src/invariants.rs:99-137 | sound books pass the collateral check |
| Guards.ChecksMean | programs/conditional-stocks/src/pool.rs:479-497 | the checks of an instruction's end mean that no wallet holds pool credit any more and that the market owes every pool what it owed |
| Guards.CheckedIsPayable | programs/conditional-stocks/src/invariants.rs:99-137 | passing the collateral check means that in every outcome still possible the backing pays every claim outstanding, the pool's vault holds it beside all else that is owed, and custody holds the tokens of every claim owed |
| Guards.ReleaseHasRoom | programs/conditional-stocks/src/exchange.rs:153-163 | escrow and both exposure counters hold what a release takes |
| Opening.CheckOpening | programs/conditional-stocks/src/exchange.rs:318-376 | the opening loops pass exactly when every presented pool is solvent, every claim backed and every participant's wallet empty of pool credit |
| Opening.OpeningPasses | programs/conditional-stocks/src/exchange.rs:233-376 | none of these guards fires in a state that satisfies the invariant |
| Opening.OpeningFits | programs/conditional-stocks/src/exchange.rs:612-623 | the 128-bit escrow and exposure counters have room for every order that passes the entry checks |
| Session.Session.OpenOrder | programs/conditional-stocks/src/exchange.rs:611-639 | the order opens in the code's order, failing exactly for want of funds, counter room or sequence |
| Session.Session.Credit | programs/conditional-stocks/src/state.rs:200-206 | balance and market credits grow together, failing exactly on overflow |
| Session.Session.Debit | programs/conditional-stocks/src/state.rs:207-214 | balance and market credits shrink together, failing exactly on a shortfall |
| Session.Session.SettleAsset | programs/conditional-stocks/src/exchange.rs:919-939 | the delivery, its checks never failing |
| Session.Session.RefundSurplus | programs/conditional-stocks/src/exchange.rs:871-886 | a completed ask's leftover returns to its funding asset |
| Session.Session.FillMaker | programs/conditional-stocks/src/exchange.rs:641-760 | one iteration of the settlement loop, in the code's order, is one step of the specification |
| Session.Session.ReleaseOrder | programs/conditional-stocks/src/exchange.rs:139-163 | a release in the code's order |
| Session.Session.HydrateFrames | programs/conditional-stocks/src/pool.rs:454-465 | every frame finds its wallet empty and loads |
| Session.Session.FlushFrames | programs/conditional-stocks/src/pool.rs:466-477 | every frame takes back what is left, and stores it |
| Session.Session.MintPresented | programs/conditional-stocks/src/exchange.rs:810-833 | mints what is owed of every presented collateral; delta and collateral checks pass |
| PlaceHandler.ReviewPlan | programs/conditional-stocks/src/exchange.rs:493-602 | the pre-pass loop accepts exactly the reviewable plans and keeps exactly the survivors |
| PlaceHandler.SettlePicks | programs/conditional-stocks/src/exchange.rs:641-774 | the settlement loop settles the survivors in order |
| PlaceHandler.ClosePlacement | programs/conditional-stocks/src/exchange.rs:810-844 | minting, all closing guards and the flush; none of the guards fires |
| PlaceHandler.Attempt | programs/conditional-stocks/src/exchange.rs:223-844 | the whole instruction, its opening and closing guards passing, succeeds exactly when admissible and leaves exactly the specified books and credit |
| PositionHandler.Split | programs/conditional-stocks/src/custody.rs:466-494 | the split in the code's order, every guard passing |
| PositionHandler.Take | programs/conditional-stocks/src/custody.rs:496-568 | merge and redeem in the code's order: refused exactly when the claims are not held |
| ReleaseHandler.HandledInTurn | programs/conditional-stocks/src/maintenance.rs:106-177 | releasing and closing each order in turn is releasing all, then closing all |
| ReleaseHandler.ProcessBatch | programs/conditional-stocks/src/maintenance.rs:90-183 | the batch loop leaves exactly the specified state, no check in it failing |
| Program.Program.Place | programs/conditional-stocks/src/exchange.rs:223-844 | succeeds exactly when admissible; stores exactly the specified state, or nothing |
| Program.Program.Split | programs/conditional-stocks/src/custody.rs:466-494 | succeeds exactly when it can; stores exactly the specified state, or nothing |
| Program.Program.Merge | programs/conditional-stocks/src/custody.rs:496-523 | as above |
| Program.Program.Redeem | programs/conditional-stocks/src/custody.rs:525-568 | as above |
| Program.Program.Cancel | programs/conditional-stocks/src/exchange.rs:52-137 | succeeds exactly for the owner, a grant, a delisted ask or a releasable order, each spelled out; stores exactly the specified state, or nothing |
| Program.Program.ProcessOrders | programs/conditional-stocks/src/maintenance.rs:50-184 | succeeds exactly for a batch its actor may cancel or retire, who that is spelled out; stores exactly the specified state, or nothing |
| Program.Program.InvalidateNonce | programs/conditional-stocks/src/exchange.rs:18-32 | the minimum nonce only grows |
| Program.Program.DepositPool | programs/conditional-stocks/src/pool.rs:192-313 | credits what the vault received; the solvency checks pass |
| Program.Program.WithdrawPool | programs/conditional-stocks/src/pool.rs:192-313 | debits what the vault sends; the solvency checks pass |
| Program.Program.Deposit | programs/conditional-stocks/src/custody.rs:124-176 | succeeds exactly when the tokens are there; solvency checks pass |
| Program.Program.Withdraw | programs/conditional-stocks/src/custody.rs:202-272 | succeeds exactly when the balance is there; solvency checks pass |
| Program.Program.TransferCredit | programs/conditional-stocks/src/custody.rs:662-675 | moves a balance between two wallets and nothing else |
| Program.Program.ClaimFees | programs/conditional-stocks/src/custody.rs:689-704 | moves earned fees to a wallet |
| Reconciliation.Reconcile | services/solana-indexer/src/custody.ts:49-116 | accepts exactly the snapshots whose every counter is the sum of its records |
| Reconciliation.InvReconciles | services/solana-indexer/src/custody.ts:49-116 | every deployment that satisfies the invariant is accepted |
| Reconciliation.EveryRunReconciles | services/solana-indexer/src/custody.ts:47-116 | the ledger of every state of every run adds up, though trading never writes a pool |
| Redeeming.PlanRedemption | packages/solana-client/src/claims.ts:54-84 | every claim is merged, redeemed or retained once; at most one is retained, and only at equal payout |
| Redeeming.MergeThenRedeem | packages/solana-client/src/claims.ts:50-53 | the program accepts the plan's merge, and then its redemption |
| Redeeming.PlanPays | packages/solana-client/src/claims.ts:54-84 | together they pay the plan's credit, the claims' value rounded down once |
| Planner.Enqueue | packages/solana-client/src/planner.ts:88-137 | refuses exactly a misreported book; otherwise queues exactly the eligible candidates, cheapest first for a buyer and dearest first for a seller, earliest first at one price |
| Planner.QueueIsUnique | packages/solana-client/src/planner.ts:129-137 | there is only one such queue |
| Matchmaking.TakeMakers | packages/solana-client/src/planner.ts:138-186 | the matching loop, its early exits and its totals |
| Matchmaking.PlanOrder | packages/solana-client/src/planner.ts:63-186 | plans exactly when order, book and walk allow it |
| Priority.WalkIsSound | packages/solana-client/src/planner.ts:138-172 | quantities add up with the remainder to the order, quotes to the total, legs are whole steps their makers have and can deliver, deadline is the earliest expiry |
| Priority.PriceTimePriority | packages/solana-client/src/planner.ts:146-172 | whoever is ahead of a used maker was filled in full or could not deliver at its turn |
| Priority.BestFirst | packages/solana-client/src/planner.ts:125-172 | if a maker is used, every eligible candidate strictly cheaper for a buyer, strictly dearer for a seller, or as priced and earlier, is filled in full or could not deliver at its turn |
| Priority.PlanAddsUp | packages/solana-client/src/planner.ts:138-186 | a plan has at most eight makers, expires after a minute or with the first order it binds, fills and leaves what the order asked, quotes what its legs cost and demands a fill exactly when it cannot rest |
| Priority.PlanIsLive | packages/solana-client/src/planner.ts:120-172 | a plan is live, and every maker of it is unexpired, on the other side of the branch, within the order's limit, of a leg its buyer accepts that is known to trade, with a high enough fee cap |
| Priority.RemainderHasPassed | packages/solana-client/src/planner.ts:146-172 | a resting remainder has passed the whole queue |
| Priority.TakenExactlyInFull | packages/solana-client/src/planner.ts:146-172 | behind a resting remainder, exactly the candidates that deliver all they have left are filled, in full; of any other nothing is taken |
| Priority.RemainderIs | packages/solana-client/src/planner.ts:138-172 | the remainder is the order's quantity less all that those candidates have left |
| Priority.RemainderCrosses | packages/solana-client/src/planner.ts:143-165 | it rests across a candidate exactly when that one cannot deliver all it has left, but can deliver what the remainder asks |
| Priority.RemainderCrossesNobody | packages/solana-client/src/planner.ts:143-165 | so it crosses nobody exactly when the book has no such candidate |
| Priority.ParseLegs | packages/solana-client/src/planner.ts:209-237 | reads exactly the well-formed legs |
| Priority.ParsePlan | packages/solana-client/src/planner.ts:189-252 | accepts exactly the plans whose legs read well and whose totals add up |
| Priority.PlansAreRead | packages/solana-client/src/planner.ts:189-252 | where what the eligible makers offer fits 64 bits together, a plan is accepted exactly when the clock is not more than a plan's lifetime before the epoch |
| PlanLimits.PartialIsListable | programs/conditional-stocks/src/governance.rs:244-263 | the leg of the next book passes its listing checks, and its live multiplier is in the band |
| PlanLimits.RemainderMayCrossAPassedMaker | packages/solana-client/src/planner.ts:153-160 | a book on which the remainder rests across a partly covered ask |
| Instruction.BuildPlacement | packages/solana-client/src/transactions.ts:738-847 | presents exactly the touched legs, participants and credit frames of a plan that reads well |
| Acceptance.OffersFit | programs/conditional-stocks/src/exchange.rs:785-809 | on a market's own book the makers' offers fit 64 bits together: they are part of the exposure its caps bound |
| Acceptance.PlanReads | packages/solana-client/src/planner.ts:189-252 | whatever the planner plans on a market's book, the check before signing accepts |
| Acceptance.BookIsReported | packages/solana-client/src/planner.ts:88-119 | the orders of a market's own book are ones the planner accepts |
| Acceptance.PlannerAdmits | packages/solana-client/src/planner.ts:63-87 | an order that may be placed is one the planner plans |
| Acceptance.TakeableIsEligible | packages/solana-client/src/planner.ts:120-128 | the planner passes over nobody that the program would fill |
| Acceptance.PlanIsBuilt | packages/solana-client/src/transactions.ts:738-819 | on the planned book the builder always succeeds: the plan reads well and no quote overflows |
| Acceptance.LegSurvives | programs/conditional-stocks/src/exchange.rs:493-602 | every planned maker passes the pre-pass at its planned quantity; none lacks a frame |
| Acceptance.EntryPasses | programs/conditional-stocks/src/exchange.rs:223-443 | every check before the pre-pass passes for what the builder presents |
| Acceptance.PlanIsAccepted | packages/solana-client/src/planner.ts:138-186 | the program picks exactly the planned makers at the planned quantities |
| Acceptance.SurplusIsReturned | packages/solana-client/src/planner.ts:150-160 | whenever a planned fill leaves a pool-funded ask a surplus, the plan says so and its frame is presented |
| Acceptance.ImprovementIsReturned | packages/solana-client/src/transactions.ts:738-819 | whenever a planned fill improves a pool-funded bid, its frame is presented |
| Acceptance.PlanPaysItsQuote | packages/solana-client/src/planner.ts:163-184 | the fills pay exactly the plan's quote |
| Acceptance.PlanIsCarriedOut | programs/conditional-stocks/src/exchange.rs:641-774 | makers, taker and all other orders end as planned |
| Acceptance.PlanSucceedsWithinCaps | programs/conditional-stocks/src/exchange.rs:785-809 | such a placement succeeds exactly when it leaves the exposure within the caps |
| Transfers.FeeIsRoundedUp | packages/solana-client/src/tokens.ts:174-187 | the fee is the least whole amount no less than the rate, or the cap |
| Transfers.NetGrows | packages/solana-client/src/tokens.ts:174-187 | sending more never delivers less, for every rate up to the whole and any cap |
| Transfers.TransferGross | packages/solana-client/src/tokens.ts:191-203 | finds the least 64-bit gross that delivers the credit, and fails exactly when there is none |
| Decimals.ParseOfPrinted | packages/domain/src/units.ts:93-119 | parsing printed text of at most 160 characters returns the value, for every exponent |
| Decimals.PrintOfParsed | packages/domain/src/units.ts:93-119 | printing what parsed returns the text without trailing fractional zeros |
| Invocations.Decode | services/solana-indexer/src/history.ts:60-83 | the stack machine, line by line |
| Invocations.CommitsWhatTookEffect | services/solana-indexer/src/history.ts:57-83 | a well-bracketed log commits, in log order, exactly the program's own data lines under successes only |
| Invocations.AcceptsOnlyBracketed | services/solana-indexer/src/history.ts:64-83 | whatever is accepted is a well-bracketed log with matching depths and program names |
| Quoter.BackedIffReserved | services/market-maker/src/strategy.ts:47-55 | share units are backed exactly when their rounded-up raw amount is held |
| Quoter.PricesWiden | services/market-maker/src/strategy.ts:183-186 | a wider edge never quotes better |
| Quoter.PricesStraddle | services/market-maker/src/strategy.ts:183-186 | bids are below and asks above the fair price at any edge |
| Quoter.PriceIsBest | services/market-maker/src/strategy.ts:183-186 | a price is the best whole tick its edge allows |
| Quoter.RungsKeepTheSpread | services/market-maker/src/strategy.ts:178-190 | every rung is at least its level's edge away from the fair price, and no edge is wider than allowed |
| Quoter.WeightsAddUp | services/market-maker/src/strategy.ts:187-194 | the levels' weights add up: the last level may spend all that is left |
| Quoter.AmountIsMost | services/market-maker/src/strategy.ts:203-218 | a rung offers the most whole steps that room, sizes, skewed budget and cash allow |
| Quoter.RungIsFunded | services/market-maker/src/strategy.ts:203-241 | a rung sized as the code sizes it reserves no more than what is left |
| Quoter.QuoteLadder | services/market-maker/src/strategy.ts:162-242 | every level that can be quoted, at all it may offer, and no other; fails exactly when a rung's conversion leaves 64 bits; rungs are whole, strictly monotone, within room, funds and budget, and never cross |
| MarketMaker.FairPricesAre | services/market-maker/src/strategy.ts:67-84 | a favourable event prices YES at or above the spot and NO at or below, an unfavourable one the reverse; they are the gap apart within two raw units, and average to the spot at the event's probability within one |
| MarketMaker.SpreadCovers | services/market-maker/src/strategy.ts:146-152 | the half spread covers its floor, adverse selection, twice the movement and the uncertainty, and a sale at it pays the fair price after the maker's fee |
| MarketMaker.BudgetIsLargest | services/market-maker/src/strategy.ts:153-158 | a side commits as much as the order size, the largest orders and a quarter of the exposure caps allow, and no more |
| MarketMaker.BidsLeanAgainst | services/market-maker/src/strategy.ts:255-266 | bids want all of their size up to the target and nothing at twice the target |
| MarketMaker.AsksLeanWith | services/market-maker/src/strategy.ts:278-287 | asks offer more the more is held, all of it from the target on |
| MarketMaker.QuoteBranch | services/market-maker/src/strategy.ts:243-288 | exactly the rungs of the bid ladder and of one ask ladder per leg with claims; answers exactly when those convert |
| MarketMaker.Quotes | services/market-maker/src/strategy.ts:108-290 | answers exactly when its input is admitted and, unless the spread is too wide to quote, every leg is known and every ask converts; then both branches, or none |
| MarketMaker.QuotesAreOrders | services/market-maker/src/strategy.ts:206-232 | every quote is an order the market takes, whole in step and tick and within its sizes and notionals, at least the half spread and its level's spacing off its branch's fair price; bids accept every tradable leg, asks deliver their own |
| MarketMaker.BidsBelowAsks | services/market-maker/src/strategy.ts:255-287 | every bid of a branch is below every ask of it and neither reaches the foreign top |
| MarketMaker.PositionIsBounded | services/market-maker/src/strategy.ts:255-266 | filling all bids leaves at most what is held or twice the target |
| MarketMaker.ClaimsCoverAsks | services/market-maker/src/strategy.ts:278-287 | the asks of a leg reserve no more than its claims |
| MarketMaker.AsksShareTheBudget | services/market-maker/src/strategy.ts:270-283 | the asks of all issuers together stay within the side's budget |

## Left out

- Token programs, account addresses, signatures, rent, serialization, events and evidence hashes: accounts are maps, mints and burns exact.
- Delegation grants: whether a maker's grant still authorizes it, and who may cancel by grant, are inputs (`lapsed`, `granted`); the invariants of the grants themselves are not modelled.
- Token extensions: pause, freeze and multiplier are inputs of each instruction; a transfer's received amount is an input bounded by what was sent.
- Program.Program.InvalidateNonce: states its new record only; its effect on orders is in `Aging.StepAges`.
- Governance handlers: create, list, switch, lifecycle and resolve are modelled by the market record they leave, not field by field, since each only assigns fields of one record.
- Governance.ResolveKeepsInv: the commitment to the announced payout is not modelled, so any valid payout may be announced; what was announced is what is paid.
- Outcomes.StateChangesHaveCauses: which administrator signs is not modelled; `committed` stands for a non-zero commitment of one.
- Permanent-delegate seizure by an issuer: it can empty a vault, so it is no environment step.
- Acceptance.PlanSucceedsWithinCaps: the planner does not see other makers' exposure, so the caps stay a condition of the placement itself.
- Matchmaking.PlanOrder: orders arrive parsed; which texts parse as addresses and integers is not modelled.
- Invocations.Decode: lines arrive classified; the regular expressions that classify them, and decoding of event payloads, are not modelled.
- Transfers.TransferGross: the fee of the token library is taken to be the smaller of its cap and the rate rounded up.
- MarketMaker.Quotes: the equity estimate, order replacement and reading of settings are not modelled.
- Redeeming.PlanRedemption: amounts outside 64 bits, which the client refuses first, are not represented.
- Ingestion, caches, databases, feeds and user interfaces.
