/** What one trade does to a market's books, and what every trade keeps. */
module Settlement {
  import opened Exact
  import opened Rules
  import opened Sums
  import opened State

  // ------------------------------------------------------------ well-formed books

  ghost predicate TermsOk(m: Market) {
    m.terms.caps.Validate().Ok?
  }

  ghost predicate OrderTermsOk(m: Market, t: OrderTerms) {
    && t.side < 2 && t.funding < 2 && t.branch < 2 && t.tif < 2
    && t.bases != {} && (forall c | c in t.bases :: 1 <= c <= m.bases)
    && (t.side == 1 ==> SingleBase(t.bases).Some?)
    && m.terms.caps.ValidateOrder(t.quantity, t.price).Ok?
    && t.expiry <= m.terms.tradingCutoff
    && t.maxFeeBps <= MAX_FEE_BPS
    && (BoundNonce(t.salt).Some? ==> BoundNonce(t.salt).value == t.nonce)
  }

  /** What holds of every order a market has an account for. An open order's notional is its
      remaining quantity at its limit, rounded up; a bid reserves exactly that. */
  ghost predicate OrderOk(m: Market, key: OrderKey, o: Order) {
    && key.salt == o.terms.salt
    && OrderTermsOk(m, o.terms)
    && 0 <= o.sequence < m.sequence[o.terms.branch]
    && 0 <= o.feeCarry < BPS
    && 0 <= o.filled && 0 <= o.remaining
    && match o.status
       case 1 =>
         && 0 < o.remaining && o.remaining % m.terms.caps.step == 0
         && o.filled + o.remaining == o.terms.quantity
         && o.openNotional == Ceil(o.remaining, o.terms.price)
         && 0 <= o.reserved && (o.terms.side == 0 ==> o.reserved == o.openNotional)
       case 2 => o.filled == o.terms.quantity && o.remaining == o.reserved == o.openNotional == 0
       case 3 => o.filled < o.terms.quantity && o.remaining == o.reserved == o.openNotional == 0
       case _ => false
  }

  ghost predicate OrdersOk(b: Book) {
    forall k | k in b.orders :: OrderOk(b.market, k, b.orders[k])
  }

  ghost predicate NonNegative(b: Book) {
    && (forall o, a | o in b.wallets && 0 <= a < ASSETS :: b.wallets[o].balances[a] >= 0)
    && (forall a | 0 <= a < ASSETS :: b.ledgers.fees[a] >= 0)
    && (forall c | 0 <= c < COLLATERALS :: b.ledgers.backing[c] >= 0)
  }

  ghost predicate Core(b: Book) {
    TermsOk(b.market) && Balanced(b) && OrdersOk(b) && NonNegative(b)
  }

  /** Outstanding supply, including what this instruction still has to mint, is backed in
      every outcome the market can still have; claim custody covers every claim owed. */
  ghost predicate CollateralBacked(m: Market, l: Ledgers, tokens: Tokens, minted: Amounts, c: nat)
    requires c < COLLATERALS
  {
    var yes, no := Claim(c, 0), Claim(c, 1);
    var y, n := tokens[yes].supply + minted[yes], tokens[no].supply + minted[no];
    match m.Payouts()
    case None => y <= l.backing[c] && n <= l.backing[c]
    case Some(p) =>
      (p == (1, 0) && y <= l.backing[c]) || (p == (0, 1) && n <= l.backing[c])
      || (p == (1, 1) && y + n <= 2 * l.backing[c])
  }

  ghost predicate ClaimCovered(l: Ledgers, tokens: Tokens, minted: Amounts, a: nat)
    requires a < ASSETS
  {
    && 0 <= minted[a]
    && l.Liability(a) <= tokens[a].vault + minted[a]
    && 0 <= tokens[a].vault <= tokens[a].supply <= U64_MAX
  }

  ghost predicate Backed(b: Book, minted: Amounts) {
    && (forall c | 0 <= c < COLLATERALS :: CollateralBacked(b.market, b.ledgers, b.tokens, minted, c))
    && (forall a | 0 <= a < ASSETS && IsClaim(a) :: ClaimCovered(b.ledgers, b.tokens, minted, a))
  }

  /** No collateral's demand leaves u64: what a pool's own 64-bit liability guarantees. */
  ghost predicate Bounded(b: Book) {
    forall c | 0 <= c < COLLATERALS :: b.ledgers.Liability(Underlying(c)) <= U64_MAX
  }

  // ------------------------------------------------------------------- one trade

  /** quantity share units of the leg `base` at the maker's price; raw is what they convert
      to at the leg's live multiplier. */
  datatype Trade = Trade(buy: OrderKey, sell: OrderKey, base: nat, quantity: nat, price: nat, raw: nat,
                         buyerRate: u16, sellerRate: u16)
  {
    function Quote(): nat {
      Floor(quantity, price)
    }
  }

  function FeeOn(gross: nat, rate: u16, carry: int): int {
    (gross * rate + carry) / BPS
  }

  function CarryOn(gross: nat, rate: u16, carry: int): int {
    (gross * rate + carry) % BPS
  }

  lemma FeeBounds(gross: nat, rate: u16, carry: int)
    requires rate <= MAX_FEE_BPS && 0 <= carry < BPS
    ensures 0 <= FeeOn(gross, rate, carry) <= gross && 0 <= CarryOn(gross, rate, carry) < BPS
  {
    MulBound(gross, gross, rate, MAX_FEE_BPS);
  }

  function Bought(o: Order, t: Trade): Order
    requires t.quantity <= o.remaining
  {
    var remaining := o.remaining - t.quantity;
    var notional := Ceil(remaining, o.terms.price);
    o.(remaining := remaining, filled := o.filled + t.quantity, reserved := notional, openNotional := notional,
       feeCarry := CarryOn(t.raw, t.buyerRate, o.feeCarry), status := if remaining == 0 then FILLED else o.status)
  }

  /** The seller's order; when it completes, its reservation surplus leaves with it. */
  function Sold(o: Order, t: Trade): Order
    requires t.quantity <= o.remaining
  {
    var remaining := o.remaining - t.quantity;
    o.(remaining := remaining, filled := o.filled + t.quantity,
       reserved := if remaining == 0 then 0 else o.reserved - t.raw,
       openNotional := Ceil(remaining, o.terms.price),
       feeCarry := CarryOn(t.Quote(), t.sellerRate, o.feeCarry), status := if remaining == 0 then FILLED else o.status)
  }

  function Improvement(buy: Order, t: Trade): int
    requires t.quantity <= buy.remaining
  {
    Ceil(buy.remaining, buy.terms.price) - Ceil(buy.remaining - t.quantity, buy.terms.price) - t.Quote()
  }

  function Surplus(sell: Order, t: Trade): int {
    if sell.remaining == t.quantity then sell.reserved - t.raw else 0
  }

  function AddBacking(b: Book, c: nat, amount: int): Book
    requires c < COLLATERALS
  {
    b.(ledgers := b.ledgers.(backing := b.ledgers.backing[c := b.ledgers.backing[c] + amount]))
  }

  function AddFees(b: Book, a: nat, amount: int): Book
    requires a < ASSETS
  {
    b.(ledgers := b.ledgers.(fees := b.ledgers.fees[a := b.ledgers.fees[a] + amount]))
  }

  /** Delivers amount claims of one collateral on the traded branch, less the fee. Pool
      collateral becomes a complete set whose other half stays with the funder. */
  function Deliver(b: Book, c: nat, funding: nat, funder: Pubkey, recipient: Pubkey,
                   branch: nat, amount: int, fee: int): (r: Book)
    requires c < COLLATERALS && branch < 2 && funder in b.wallets && recipient in b.wallets
    ensures r.wallets.Keys == b.wallets.Keys && r.orders == b.orders
    ensures r.market == b.market && r.tokens == b.tokens
  {
    var funded := if funding == 0 then Post(AddBacking(b, c, amount), funder, Claim(c, 1 - branch), amount) else b;
    AddFees(Post(funded, recipient, Claim(c, branch), amount - fee), Claim(c, branch), fee)
  }

  function DeliverMints(minted: Amounts, c: nat, funding: nat, amount: int): Amounts
    requires c < COLLATERALS
  {
    if funding != 0 then minted else
    var yes := minted[Claim(c, 0) := minted[Claim(c, 0)] + amount];
    yes[Claim(c, 1) := yes[Claim(c, 1)] + amount]
  }

  /** The two orders of a trade are live, on opposite sides of one branch and cross. */
  ghost predicate Matches(b: Book, t: Trade) {
    && t.buy in b.orders && t.sell in b.orders
    && var buy, sell := b.orders[t.buy], b.orders[t.sell];
    && buy.status == LIVE && sell.status == LIVE
    && buy.terms.side == 0 && sell.terms.side == 1 && buy.terms.branch == sell.terms.branch
    && sell.terms.Collateral() == t.base
    && 0 < t.quantity <= buy.remaining && t.quantity <= sell.remaining
    && b.market.terms.caps.step > 0 && t.quantity % b.market.terms.caps.step == 0
    && sell.terms.price <= t.price <= buy.terms.price && t.Quote() > 0
    && 0 < t.raw <= sell.reserved
    && t.buyerRate <= MAX_FEE_BPS && t.sellerRate <= MAX_FEE_BPS
    && buy.terms.recipient in b.wallets && sell.terms.recipient in b.wallets
  }

  /** Everything a trade touches exists. */
  ghost predicate Settleable(b: Book, t: Trade) {
    && t.buy in b.orders && t.sell in b.orders && t.buy != t.sell
    && t.quantity <= b.orders[t.buy].remaining && t.quantity <= b.orders[t.sell].remaining
    && t.buy.owner in b.wallets && t.sell.owner in b.wallets
    && b.orders[t.buy].terms.recipient in b.wallets && b.orders[t.sell].terms.recipient in b.wallets
    && b.orders[t.buy].terms.Asset() < ASSETS && b.orders[t.sell].terms.Asset() < ASSETS
    && t.base < COLLATERALS && b.orders[t.buy].terms.branch < 2
  }

  /** The sides are settled: both orders shrink, escrow and exposure with them, and the
      buyer's price improvement becomes available again. */
  ghost function SettleOrders(b: Book, t: Trade): (r: Book)
    requires Settleable(b, t)
    ensures r.wallets.Keys == b.wallets.Keys && r.market == b.market && r.tokens == b.tokens
    ensures r.orders == b.orders[t.buy := Bought(b.orders[t.buy], t)][t.sell := Sold(b.orders[t.sell], t)]
    ensures r.ledgers.backing == b.ledgers.backing && r.ledgers.fees == b.ledgers.fees
  {
    var buy, sell := b.orders[t.buy], b.orders[t.sell];
    var improved := Post(b, t.buy.owner, buy.terms.Asset(), Improvement(buy, t));
    SetOrder(SetOrder(improved, t.buy, Bought(buy, t)), t.sell, Sold(sell, t))
  }

  /** The leg is delivered to the buyer's recipient. */
  ghost function DeliverBase(b: Book, t: Trade): (r: Book)
    requires Settleable(b, t)
    ensures r.wallets.Keys == b.wallets.Keys && r.market == b.market && r.tokens == b.tokens
    ensures r.orders == SettleOrders(b, t).orders
  {
    var buy, sell := b.orders[t.buy], b.orders[t.sell];
    Deliver(SettleOrders(b, t), t.base, sell.terms.funding, t.sell.owner, buy.terms.recipient, buy.terms.branch,
            t.raw, FeeOn(t.raw, t.buyerRate, buy.feeCarry))
  }

  /** The quote is delivered to the seller's recipient. */
  ghost function DeliverQuote(b: Book, t: Trade): (r: Book)
    requires Settleable(b, t)
    ensures r.wallets.Keys == b.wallets.Keys && r.market == b.market && r.tokens == b.tokens
    ensures r.orders == SettleOrders(b, t).orders
  {
    var buy, sell := b.orders[t.buy], b.orders[t.sell];
    Deliver(DeliverBase(b, t), QUOTE, buy.terms.funding, t.buy.owner, sell.terms.recipient, buy.terms.branch,
            t.Quote(), FeeOn(t.Quote(), t.sellerRate, sell.feeCarry))
  }

  /** The books after a trade, as elementary moves: what was reserved becomes claims for the
      recipients, fees and refunds. */
  ghost function Settle(b: Book, t: Trade): (r: Book)
    requires Settleable(b, t)
    ensures r.wallets.Keys == b.wallets.Keys && r.market == b.market && r.tokens == b.tokens
    ensures r.orders == SettleOrders(b, t).orders
  {
    var sell := b.orders[t.sell];
    Post(DeliverQuote(b, t), t.sell.owner, sell.terms.Asset(), Surplus(sell, t))
  }

  ghost function SettleMints(b: Book, minted: Amounts, t: Trade): Amounts
    requires Settleable(b, t)
  {
    DeliverMints(DeliverMints(minted, t.base, b.orders[t.sell].terms.funding, t.raw),
                 QUOTE, b.orders[t.buy].terms.funding, t.Quote())
  }

  // ------------------------------------------------------ what a trade keeps

  lemma SideLedgersKeepBalance(b: Book, c: nat, a: nat, amount: int)
    requires Balanced(b) && c < COLLATERALS && a < ASSETS
    ensures Balanced(AddBacking(b, c, amount)) && Balanced(AddFees(b, a, amount))
  {
  }

  lemma DeliverKeepsBalance(b: Book, c: nat, funding: nat, funder: Pubkey, recipient: Pubkey,
                            branch: nat, amount: int, fee: int)
    requires Balanced(b) && c < COLLATERALS && branch < 2 && funder in b.wallets && recipient in b.wallets
    ensures Balanced(Deliver(b, c, funding, funder, recipient, branch, amount, fee))
  {
    var funded := b;
    if funding == 0 {
      SideLedgersKeepBalance(b, c, 0, amount);
      PostKeepsBalance(AddBacking(b, c, amount), funder, Claim(c, 1 - branch), amount);
      funded := Post(AddBacking(b, c, amount), funder, Claim(c, 1 - branch), amount);
    }
    PostKeepsBalance(funded, recipient, Claim(c, branch), amount - fee);
    SideLedgersKeepBalance(Post(funded, recipient, Claim(c, branch), amount - fee), c, Claim(c, branch), fee);
  }

  /** A delivery adds the amount to what is owed in the active claim; from pool collateral
      also in the other claim and in the backing. */
  lemma DeliverMovesLiability(b: Book, c: nat, funding: nat, funder: Pubkey, recipient: Pubkey,
                              branch: nat, amount: int, fee: int, a: nat)
    requires c < COLLATERALS && branch < 2 && funder in b.wallets && recipient in b.wallets && a < ASSETS
    ensures Deliver(b, c, funding, funder, recipient, branch, amount, fee).ledgers.Liability(a)
            == b.ledgers.Liability(a)
               + (if a == Claim(c, branch) || (funding == 0 && CollateralOf(a) == c) then amount else 0)
  {
  }

  lemma MatchesSettles(b: Book, t: Trade)
    requires Core(b) && Matches(b, t)
    ensures Settleable(b, t)
  {
    hide Floor, Ceil;
    assert OrderOk(b.market, t.buy, b.orders[t.buy]) && OrderOk(b.market, t.sell, b.orders[t.sell]);
  }

  lemma SettleKeepsBalance(b: Book, t: Trade)
    requires Balanced(b) && Settleable(b, t)
    ensures Balanced(Settle(b, t))
  {
    hide Balanced, Post, SetOrder, Deliver, Improvement, Surplus, FeeOn;
    var buy, sell := b.orders[t.buy], b.orders[t.sell];
    var b1 := Post(b, t.buy.owner, buy.terms.Asset(), Improvement(buy, t));
    PostKeepsBalance(b, t.buy.owner, buy.terms.Asset(), Improvement(buy, t));
    SetOrderKeepsBalance(b1, t.buy, Bought(buy, t));
    SetOrderKeepsBalance(SetOrder(b1, t.buy, Bought(buy, t)), t.sell, Sold(sell, t));
    DeliverKeepsBalance(SettleOrders(b, t), t.base, sell.terms.funding, t.sell.owner, buy.terms.recipient,
                        buy.terms.branch, t.raw, FeeOn(t.raw, t.buyerRate, buy.feeCarry));
    DeliverKeepsBalance(DeliverBase(b, t), QUOTE, buy.terms.funding, t.buy.owner, sell.terms.recipient,
                        buy.terms.branch, t.Quote(), FeeOn(t.Quote(), t.sellerRate, sell.feeCarry));
    PostKeepsBalance(DeliverQuote(b, t), t.sell.owner, sell.terms.Asset(), Surplus(sell, t));
  }

  /** A trade owes exactly what it mints: every underlying liability is unchanged, every
      claim liability grows by the tokens this trade adds to the mint. */
  lemma SettleMovesLiability(b: Book, minted: Amounts, t: Trade, a: nat)
    requires Core(b) && Matches(b, t) && Settleable(b, t) && a < ASSETS
    ensures Settle(b, t).ledgers.Liability(a) - b.ledgers.Liability(a) == SettleMints(b, minted, t)[a] - minted[a]
  {
    hide Post, Deliver, Improvement, Surplus, FeeOn, Floor, Ceil, Core, SettleOrders, SettleMints, Bought, Sold,
      Ledgers.Liability, SingleBase, OrderTerms.Collateral, OrderTerms.Asset;
    var buy, sell := b.orders[t.buy], b.orders[t.sell];
    SettleOrdersMovesLiability(b, t, a);
    DeliverMovesLiability(SettleOrders(b, t), t.base, sell.terms.funding, t.sell.owner, buy.terms.recipient,
                          buy.terms.branch, t.raw, FeeOn(t.raw, t.buyerRate, buy.feeCarry), a);
    DeliverMovesLiability(DeliverBase(b, t), QUOTE, buy.terms.funding, t.buy.owner, sell.terms.recipient,
                          buy.terms.branch, t.Quote(), FeeOn(t.Quote(), t.sellerRate, sell.feeCarry), a);
    PostMovesLiability(DeliverQuote(b, t), t.sell.owner, sell.terms.Asset(), Surplus(sell, t), a);
    SettleMintsAt(b, minted, t, a);
    BuyerFundsQuote(buy.terms);
    FundedAsset(buy.terms, a);
    FundedAsset(sell.terms, a);
  }

  lemma BuyerFundsQuote(t: OrderTerms)
    ensures t.side == 0 ==> t.Collateral() == QUOTE
  {
  }

  lemma PostMovesLiability(b: Book, owner: Pubkey, asset: nat, amount: int, a: nat)
    requires owner in b.wallets && asset < ASSETS && a < ASSETS
    ensures Post(b, owner, asset, amount).ledgers.Liability(a)
            == b.ledgers.Liability(a) + (if a == asset then amount else 0)
  {
  }

  lemma FundedAsset(t: OrderTerms, a: nat)
    requires t.Collateral() < COLLATERALS && t.branch < 2
    ensures a == t.Asset() <==>
            CollateralOf(a) == t.Collateral()
              && (if t.funding == 0 then !IsClaim(a) else a == Claim(t.Collateral(), t.branch))
  {
  }

  lemma DeliverMintsAt(minted: Amounts, c: nat, funding: nat, amount: int, a: nat)
    requires c < COLLATERALS && a < ASSETS
    ensures DeliverMints(minted, c, funding, amount)[a]
            == minted[a] + (if funding == 0 && IsClaim(a) && CollateralOf(a) == c then amount else 0)
  {
  }

  /** Settling the sides releases the quote and the raw delivery from the two escrows. */
  lemma SettleOrdersMovesLiability(b: Book, t: Trade, a: nat)
    requires Core(b) && Matches(b, t) && Settleable(b, t) && a < ASSETS
    ensures var buy, sell := b.orders[t.buy], b.orders[t.sell];
            SettleOrders(b, t).ledgers.Liability(a)
            == b.ledgers.Liability(a)
               - (if a == buy.terms.Asset() then t.Quote() else 0)
               - (if a == sell.terms.Asset() then t.raw + Surplus(sell, t) else 0)
  {
    hide Floor, Ceil, CarryOn;
    assert OrderOk(b.market, t.buy, b.orders[t.buy]) && OrderOk(b.market, t.sell, b.orders[t.sell]);
  }

  // Nothing available, earned or backing shrinks: every amount a trade posts is non-negative.

  ghost predicate Grows(b: Book, r: Book) {
    && r.wallets.Keys == b.wallets.Keys
    && (forall o, a | o in b.wallets && 0 <= a < ASSETS :: b.wallets[o].balances[a] <= r.wallets[o].balances[a])
    && (forall a | 0 <= a < ASSETS :: b.ledgers.credits[a] <= r.ledgers.credits[a])
    && (forall a | 0 <= a < ASSETS :: b.ledgers.fees[a] <= r.ledgers.fees[a])
    && (forall c | 0 <= c < COLLATERALS :: b.ledgers.backing[c] <= r.ledgers.backing[c])
  }

  lemma PostGrows(b: Book, owner: Pubkey, asset: nat, amount: int)
    requires owner in b.wallets && asset < ASSETS && amount >= 0
    ensures Grows(b, Post(b, owner, asset, amount))
  {
  }

  lemma DeliverGrows(b: Book, c: nat, funding: nat, funder: Pubkey, recipient: Pubkey,
                     branch: nat, amount: int, fee: int)
    requires c < COLLATERALS && branch < 2 && funder in b.wallets && recipient in b.wallets
    requires 0 <= fee <= amount
    ensures Grows(b, Deliver(b, c, funding, funder, recipient, branch, amount, fee))
  {
    var funded := b;
    if funding == 0 {
      PostGrows(AddBacking(b, c, amount), funder, Claim(c, 1 - branch), amount);
      funded := Post(AddBacking(b, c, amount), funder, Claim(c, 1 - branch), amount);
    }
    PostGrows(funded, recipient, Claim(c, branch), amount - fee);
  }

  lemma TradeAmounts(b: Book, t: Trade)
    requires Core(b) && Matches(b, t)
    ensures var buy, sell := b.orders[t.buy], b.orders[t.sell];
            && Improvement(buy, t) >= 0 && Surplus(sell, t) >= 0
            && 0 <= FeeOn(t.raw, t.buyerRate, buy.feeCarry) <= t.raw
            && 0 <= FeeOn(t.Quote(), t.sellerRate, sell.feeCarry) <= t.Quote()
  {
    hide Floor, Ceil, FeeOn, CarryOn, Caps.ValidateOrder, Caps.Validate, SingleBase, BoundNonce;
    var buy, sell := b.orders[t.buy], b.orders[t.sell];
    assert OrderOk(b.market, t.buy, buy) && OrderOk(b.market, t.sell, sell);
    ReservationCoversFill(t.quantity, buy.remaining - t.quantity, buy.terms.price, t.price);
    FeeBounds(t.raw, t.buyerRate, buy.feeCarry);
    FeeBounds(t.Quote(), t.sellerRate, sell.feeCarry);
  }

  /** Every stage of a trade only adds to what is available, earned or backing. */
  lemma SettleStagesGrow(b: Book, t: Trade)
    requires Core(b) && Matches(b, t) && Settleable(b, t)
    ensures Grows(b, SettleOrders(b, t)) && Grows(SettleOrders(b, t), Settle(b, t))
    ensures Grows(DeliverBase(b, t), Settle(b, t)) && Grows(DeliverQuote(b, t), Settle(b, t))
  {
    var buy, sell := b.orders[t.buy], b.orders[t.sell];
    TradeAmounts(b, t);
    SettleOrdersGrows(b, t);
    hide Grows, Post, Deliver, Improvement, Surplus, FeeOn, Core, SettleOrders;
    DeliverGrows(SettleOrders(b, t), t.base, sell.terms.funding, t.sell.owner, buy.terms.recipient,
                 buy.terms.branch, t.raw, FeeOn(t.raw, t.buyerRate, buy.feeCarry));
    DeliverGrows(DeliverBase(b, t), QUOTE, buy.terms.funding, t.buy.owner, sell.terms.recipient,
                 buy.terms.branch, t.Quote(), FeeOn(t.Quote(), t.sellerRate, sell.feeCarry));
    PostGrows(DeliverQuote(b, t), t.sell.owner, sell.terms.Asset(), Surplus(sell, t));
    GrowsTransitive(DeliverBase(b, t), DeliverQuote(b, t), Settle(b, t));
    GrowsTransitive(SettleOrders(b, t), DeliverBase(b, t), Settle(b, t));
  }

  lemma SettleGrows(b: Book, t: Trade)
    requires Core(b) && Matches(b, t) && Settleable(b, t)
    ensures Grows(b, Settle(b, t))
  {
    hide Grows, Core, Matches, Settle, SettleOrders;
    SettleStagesGrow(b, t);
    GrowsTransitive(b, SettleOrders(b, t), Settle(b, t));
  }

  lemma SettleOrdersGrows(b: Book, t: Trade)
    requires Settleable(b, t) && Improvement(b.orders[t.buy], t) >= 0
    ensures Grows(b, SettleOrders(b, t))
  {
    hide Improvement, Bought, Sold, Surplus;
  }

  lemma GrowsTransitive(a: Book, b: Book, c: Book)
    requires Grows(a, b) && Grows(b, c)
    ensures Grows(a, c)
  {
  }

  // Order images stay well formed.

  lemma PartialRemainder(remaining: nat, quantity: nat, step: nat)
    requires step > 0 && remaining % step == 0 && quantity % step == 0 && quantity <= remaining
    ensures (remaining - quantity) % step == 0
  {
    MultiplesSubtract(remaining, quantity, step);
  }

  lemma BoughtIsOk(m: Market, key: OrderKey, o: Order, t: Trade)
    requires TermsOk(m) && OrderOk(m, key, o) && o.status == LIVE && o.terms.side == 0
    requires 0 < t.quantity <= o.remaining && t.quantity % m.terms.caps.step == 0 && t.buyerRate <= MAX_FEE_BPS
    ensures OrderOk(m, key, Bought(o, t))
  {
    PartialRemainder(o.remaining, t.quantity, m.terms.caps.step);
    FeeBounds(t.raw, t.buyerRate, o.feeCarry);
    assert Ceil(0, o.terms.price) == 0;
  }

  lemma SoldIsOk(m: Market, key: OrderKey, o: Order, t: Trade)
    requires TermsOk(m) && OrderOk(m, key, o) && o.status == LIVE && o.terms.side == 1
    requires 0 < t.quantity <= o.remaining && t.quantity % m.terms.caps.step == 0 && t.sellerRate <= MAX_FEE_BPS
    requires t.raw <= o.reserved
    ensures OrderOk(m, key, Sold(o, t))
  {
    PartialRemainder(o.remaining, t.quantity, m.terms.caps.step);
    FeeBounds(t.Quote(), t.sellerRate, o.feeCarry);
    assert Ceil(0, o.terms.price) == 0;
  }

  lemma SettleKeepsOrders(b: Book, t: Trade)
    requires Core(b) && Matches(b, t) && Settleable(b, t)
    ensures OrdersOk(Settle(b, t))
  {
    hide Settle, SettleOrders, Bought, Sold, Floor, Ceil, CarryOn, Caps.ValidateOrder, OrderTermsOk, Balanced,
      NonNegative;
    assert OrderOk(b.market, t.buy, b.orders[t.buy]) && OrderOk(b.market, t.sell, b.orders[t.sell]);
    BoughtIsOk(b.market, t.buy, b.orders[t.buy], t);
    SoldIsOk(b.market, t.sell, b.orders[t.sell], t);
    hide OrderOk, Matches, Settleable;
  }

  /** A trade keeps the books: sums, orders, signs, backing in every outcome, custody of every
      claim and the 64-bit bound of every collateral, once the tokens it owes are minted. */
  lemma SettleKeepsBooks(b: Book, minted: Amounts, t: Trade)
    requires Core(b) && Backed(b, minted) && Bounded(b) && Matches(b, t) && b.market.Payouts().None?
    ensures Settleable(b, t)
    ensures Core(Settle(b, t)) && Backed(Settle(b, t), SettleMints(b, minted, t)) && Bounded(Settle(b, t))
  {
    hide Settle, SettleMints, Balanced, OrdersOk, Matches, CollateralBacked, Ledgers.Liability, Settleable,
      TermsOk, Market.Payouts;
    MatchesSettles(b, t);
    var r, more := Settle(b, t), SettleMints(b, minted, t);
    forall a | 0 <= a < ASSETS
      ensures r.ledgers.Liability(a) - b.ledgers.Liability(a) == more[a] - minted[a]
    {
      SettleMovesLiability(b, minted, t, a);
    }
    SettleKeepsBalance(b, t);
    SettleKeepsOrders(b, t);
    SettleGrows(b, t);
    SettleMintsBacked(b, minted, t);
    GrowsKeepsSigns(b, r);
  }

  lemma GrowsKeepsSigns(b: Book, r: Book)
    requires NonNegative(b) && Grows(b, r)
    ensures NonNegative(r)
  {
  }

  /** Backing grows by exactly what a trade mints of each collateral. */
  lemma SettleMintsBacked(b: Book, minted: Amounts, t: Trade)
    requires Backed(b, minted) && Settleable(b, t) && b.market.Payouts().None? && t.raw >= 0
    ensures var r, more := Settle(b, t), SettleMints(b, minted, t);
            && (forall a | 0 <= a < ASSETS :: minted[a] <= more[a])
            && (forall a | 0 <= a < ASSETS && !IsClaim(a) :: minted[a] == more[a])
            && (forall c | 0 <= c < COLLATERALS :: CollateralBacked(r.market, r.ledgers, r.tokens, more, c))
  {
    hide Floor, Improvement, Surplus, FeeOn, Settle, SettleMints, DeliverMints, Settleable;
    var r, more := Settle(b, t), SettleMints(b, minted, t);
    forall a | 0 <= a < ASSETS
      ensures minted[a] <= more[a]
      ensures !IsClaim(a) ==> minted[a] == more[a]
    {
      SettleMintsAt(b, minted, t, a);
    }
    forall c | 0 <= c < COLLATERALS
      ensures CollateralBacked(r.market, r.ledgers, r.tokens, more, c)
    {
      assert CollateralBacked(b.market, b.ledgers, b.tokens, minted, c);
      SettleBacks(b, t, c);
      SettleMintsAt(b, minted, t, Claim(c, 0));
      SettleMintsAt(b, minted, t, Claim(c, 1));
    }
  }

  /** What a trade adds to the backing of a collateral, and to the supply of its claims. */
  ghost function Minted(b: Book, t: Trade, c: nat): int
    requires Settleable(b, t)
  {
    (if c == t.base && b.orders[t.sell].terms.funding == 0 then t.raw else 0)
    + (if c == QUOTE && b.orders[t.buy].terms.funding == 0 then t.Quote() else 0)
  }

  lemma SettleMintsAt(b: Book, minted: Amounts, t: Trade, a: nat)
    requires Settleable(b, t) && a < ASSETS
    ensures SettleMints(b, minted, t)[a] == minted[a] + (if IsClaim(a) then Minted(b, t, CollateralOf(a)) else 0)
  {
    hide Floor, DeliverMints;
    var buy, sell := b.orders[t.buy], b.orders[t.sell];
    DeliverMintsAt(minted, t.base, sell.terms.funding, t.raw, a);
    DeliverMintsAt(DeliverMints(minted, t.base, sell.terms.funding, t.raw), QUOTE, buy.terms.funding, t.Quote(), a);
  }

  lemma DeliverBacks(b: Book, c: nat, funding: nat, funder: Pubkey, recipient: Pubkey,
                     branch: nat, amount: int, fee: int, k: nat)
    requires c < COLLATERALS && branch < 2 && funder in b.wallets && recipient in b.wallets && k < COLLATERALS
    ensures Deliver(b, c, funding, funder, recipient, branch, amount, fee).ledgers.backing[k]
            == b.ledgers.backing[k] + (if k == c && funding == 0 then amount else 0)
  {
  }

  lemma SettleBacks(b: Book, t: Trade, c: nat)
    requires Settleable(b, t) && c < COLLATERALS
    ensures Settle(b, t).ledgers.backing[c] == b.ledgers.backing[c] + Minted(b, t, c)
  {
    hide Floor, FeeOn, Post, Deliver, SettleOrders;
    var buy, sell := b.orders[t.buy], b.orders[t.sell];
    DeliverBacks(SettleOrders(b, t), t.base, sell.terms.funding, t.sell.owner, buy.terms.recipient,
                 buy.terms.branch, t.raw, FeeOn(t.raw, t.buyerRate, buy.feeCarry), c);
    DeliverBacks(DeliverBase(b, t), QUOTE, buy.terms.funding, t.buy.owner, sell.terms.recipient,
                 buy.terms.branch, t.Quote(), FeeOn(t.Quote(), t.sellerRate, sell.feeCarry), c);
  }
}
